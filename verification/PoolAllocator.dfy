/** The fixed-block allocator behind every kernel object: a free list threaded through an index array. */
module PoolAllocators {
  import opened Seqs

  const NULL_IDX := -1
  const DETACHED_IDX := -2
  const SIZE_OF_INT := 4
  const NULL_BLOCK := 0

  datatype PoolResult = Success | NotEnoughMemory | UnalignedFree | OutOfRange | DoubleFree

  /** C's division and remainder, which truncate toward zero. */
  function TruncDiv(a: int, b: int): int
    requires b > 0
  {
    if a >= 0 then a / b else -((-a) / b)
  }

  function TruncMod(a: int, b: int): int
    requires b > 0
  {
    a - b * TruncDiv(a, b)
  }

  /** Where the blocks lie: `max` blocks of `itemSize` bytes from address `buffer`, bookkeeping after them. */
  datatype Layout = Layout(buffer: int, itemSize: int, max: int) {
    predicate Valid() { buffer > 0 && itemSize > 0 && max > 0 }

    function Address(idx: int): int { buffer + idx * itemSize }

    function BookkeepingAddress(): int { buffer + itemSize * max }
  }

  /** The allocator's changing state: the index array, the head of the free list and the free count. */
  datatype Pool = Pool(links: seq<int>, first: int, size: int)

  predicate Detached(p: Pool, k: int) {
    0 <= k < |p.links| && p.links[k] == DETACHED_IDX
  }

  predicate LinkAt(p: Pool, chain: seq<int>, i: nat)
    requires i < |chain|
  {
    && 0 <= chain[i] < |p.links|
    && p.links[chain[i]] == if i == |chain| - 1 then NULL_IDX else chain[i + 1]
  }

  /** `chain` is the free list: following the links from `first` visits it in order and then stops. It has no
      cycle, its members are exactly the indices not handed out, and `size` counts them. */
  ghost predicate FreeChain(p: Pool, chain: seq<int>) {
    && p.first == (if chain == [] then NULL_IDX else chain[0])
    && (p.first == NULL_IDX || 0 <= p.first < |p.links|)
    && (forall i :: 0 <= i < |chain| ==> LinkAt(p, chain, i))
    && NoDup(chain)
    && (forall k :: 0 <= k < |p.links| ==> (k in chain <==> !Detached(p, k)))
    && p.size == |chain|
  }

  ghost predicate PoolValid(l: Layout, p: Pool) {
    l.Valid() && |p.links| == l.max && exists chain :: FreeChain(p, chain)
  }

  function FreshLinks(n: nat): seq<int> {
    seq(n, i => if i == n - 1 then NULL_IDX else i + 1)
  }

  function Get(l: Layout, p: Pool): (Pool, int)
    requires 0 <= p.first < |p.links| || p.first == NULL_IDX
  {
    if p.first == NULL_IDX then (p, NULL_BLOCK)
    else (Pool(p.links[p.first := DETACHED_IDX], p.links[p.first], p.size - 1), l.Address(p.first))
  }

  /** The index a block address stands for, in C's truncating arithmetic. */
  function BlockIndex(l: Layout, block: int): int
    requires l.Valid()
  {
    TruncDiv(block - l.buffer, l.itemSize)
  }

  function Release(l: Layout, p: Pool, block: int): (Pool, PoolResult)
    requires l.Valid() && |p.links| == l.max
  {
    var idx := BlockIndex(l, block);
    if TruncMod(block - l.buffer, l.itemSize) != 0 then (p, UnalignedFree)
    else if idx < 0 || idx >= l.max then (p, OutOfRange)
    else if p.links[idx] != DETACHED_IDX then (p, DoubleFree)
    else (Pool(p.links[idx := p.first], idx, p.size + 1), Success)
  }

  // ---- addresses

  /** Addresses and indices determine each other, so release finds the index that get handed out. */
  lemma AddressIndex(l: Layout, idx: int)
    requires l.Valid() && 0 <= idx
    ensures TruncMod(l.Address(idx) - l.buffer, l.itemSize) == 0
    ensures BlockIndex(l, l.Address(idx)) == idx
  {
    DivExact(idx, l.itemSize);
  }

  lemma DivExact(q: nat, b: int)
    requires b > 0
    ensures q * b >= 0 && (q * b) / b == q
  {
    var x := q * b;
    var d, r := x / b, x % b;
    assert x == b * d + r;
    assert (q - d) * b == r;
    if q - d >= 1 { MulAtLeast(q - d, b); }
    if d - q >= 1 { MulAtLeast(d - q, b); }
    if q > 0 { MulAtLeast(q, b); }
  }

  lemma MulAtLeast(a: int, b: int)
    requires a >= 1 && b >= 1
    ensures a * b >= b
  {
    assert (a - 1) * b >= 0;
    assert a * b == (a - 1) * b + b;
  }

  lemma AlignedIsAddress(l: Layout, block: int)
    requires l.Valid() && TruncMod(block - l.buffer, l.itemSize) == 0
    ensures block == l.Address(BlockIndex(l, block))
  {
  }

  /** The same for addresses before the buffer. */
  lemma AnyAddressIndex(l: Layout, idx: int)
    requires l.Valid()
    ensures TruncMod(l.Address(idx) - l.buffer, l.itemSize) == 0
    ensures BlockIndex(l, l.Address(idx)) == idx
  {
    if idx >= 0 {
      AddressIndex(l, idx);
    } else {
      DivExact(-idx, l.itemSize);
      assert -(idx * l.itemSize) == (-idx) * l.itemSize;
    }
  }

  /** Which error release reports: an address that is no block's at all is unaligned, one of a block that the buffer
      does not have is out of range, and one of a block that is not handed out is a double free. */
  lemma ReleaseErrors(l: Layout, p: Pool, block: int)
    requires l.Valid() && |p.links| == l.max
    ensures var r := Release(l, p, block).1;
            && (r == UnalignedFree <==> forall i :: block != l.Address(i))
            && (r == OutOfRange <==> exists i :: block == l.Address(i) && !(0 <= i < l.max))
            && (r == DoubleFree <==> exists i :: block == l.Address(i) && 0 <= i < l.max && !Detached(p, i))
            && r != NotEnoughMemory
  {
    if i :| block == l.Address(i) {
      AnyAddressIndex(l, i);
      forall j | block == l.Address(j) ensures j == i { AnyAddressIndex(l, j); }
    }
    if TruncMod(block - l.buffer, l.itemSize) == 0 { AlignedIsAddress(l, block); }
  }

  /** A block lies between the start of the buffer and the bookkeeping area. */
  predicate InBuffer(l: Layout, block: int) {
    l.buffer <= block && block + l.itemSize <= l.BookkeepingAddress()
  }

  lemma BlockInBuffer(l: Layout, i: int)
    requires l.Valid() && 0 <= i < l.max
    ensures InBuffer(l, l.Address(i))
  {
    MulAtLeast(l.max - i, l.itemSize);
    Distribute(l.max, i, l.itemSize);
    if i > 0 { MulAtLeast(i, l.itemSize); }
  }

  /** Blocks of different indices share no byte, and no block reaches into the bookkeeping area. */
  lemma BlocksDisjoint(l: Layout, i: int, j: int)
    requires l.Valid() && 0 <= i < l.max && 0 <= j < l.max
    ensures i < j ==> l.Address(i) + l.itemSize <= l.Address(j)
    ensures InBuffer(l, l.Address(i)) && InBuffer(l, l.Address(j))
  {
    BlockInBuffer(l, i);
    BlockInBuffer(l, j);
    if i < j {
      MulAtLeast(j - i, l.itemSize);
      Distribute(j, i, l.itemSize);
    }
  }

  lemma Distribute(x: int, y: int, b: int)
    ensures (x - y) * b == x * b - y * b
  {
  }

  // ---- one call

  lemma FreshChain(n: int)
    requires n > 0
    ensures FreeChain(Pool(FreshLinks(n), 0, n), seq(n, i => i))
  {
    var c := seq(n, i => i);
    assert forall k :: 0 <= k < n ==> c[k] == k;
    forall k | 0 <= k < n ensures k in c {
      assert c[k] == k;
    }
  }

  lemma FreshPool(l: Layout)
    requires l.Valid()
    ensures PoolValid(l, Pool(FreshLinks(l.max), 0, l.max))
  {
    FreshChain(l.max);
  }

  /** Get hands out the head of the free list, or null exactly when no block is free. */
  lemma GetTakesHead(l: Layout, p: Pool, chain: seq<int>)
    requires l.Valid() && |p.links| == l.max && FreeChain(p, chain)
    ensures var (q, block) := Get(l, p);
            && (block == NULL_BLOCK <==> p.size == 0)
            && (block == NULL_BLOCK ==> q == p)
            && (block != NULL_BLOCK ==>
                  && block == l.Address(chain[0])
                  && FreeChain(q, chain[1..])
                  && !Detached(p, chain[0])
                  && forall k :: Detached(q, k) <==> Detached(p, k) || k == chain[0])
  {
    if chain != [] {
      assert LinkAt(p, chain, 0);
      if chain[0] > 0 { MulAtLeast(chain[0], l.itemSize); }
      PopChain(p, chain);
      assert chain[0] in chain;
    }
  }

  lemma PopChain(p: Pool, chain: seq<int>)
    requires FreeChain(p, chain) && chain != []
    requires 0 <= p.first < |p.links|
    ensures FreeChain(Pool(p.links[p.first := DETACHED_IDX], p.links[p.first], p.size - 1), chain[1..])
  {
    var q, c := Pool(p.links[p.first := DETACHED_IDX], p.links[p.first], p.size - 1), chain[1..];
    assert LinkAt(p, chain, 0);
    if c != [] { assert LinkAt(p, chain, 1); }
    forall i | 0 <= i < |c| ensures LinkAt(q, c, i) {
      assert LinkAt(p, chain, i + 1) && chain[0] != chain[i + 1];
    }
    forall k | 0 <= k < |q.links| ensures k in c <==> !Detached(q, k) {
      assert k in chain <==> k == chain[0] || k in c;
    }
  }

  /** Release succeeds exactly on the address of a block that is handed out, and otherwise changes nothing. */
  lemma ReleaseReturnsBlock(l: Layout, p: Pool, chain: seq<int>, block: int)
    requires l.Valid() && |p.links| == l.max && FreeChain(p, chain)
    ensures var (q, r) := Release(l, p, block);
            var idx := BlockIndex(l, block);
            && (r == Success <==> exists k :: Detached(p, k) && block == l.Address(k))
            && (r != Success ==> q == p)
            && (r == Success ==>
                  && block == l.Address(idx) && Detached(p, idx)
                  && FreeChain(q, [idx] + chain)
                  && forall k :: Detached(q, k) <==> Detached(p, k) && k != idx)
  {
    var (q, r) := Release(l, p, block);
    var idx := BlockIndex(l, block);
    if k :| Detached(p, k) && block == l.Address(k) {
      AddressIndex(l, k);
    }
    if r == Success {
      AlignedIsAddress(l, block);
      var c := [idx] + chain;
      assert idx !in chain;
      forall i | 0 <= i < |c| ensures LinkAt(q, c, i) {
        if i > 0 {
          assert LinkAt(p, chain, i - 1) && chain[i - 1] in chain;
        }
      }
      forall k | 0 <= k < |q.links| ensures k in c <==> !Detached(q, k) {
        assert k in c <==> k == idx || k in chain;
      }
    }
  }

  /** Releasing the block just taken puts the allocator back exactly as it was. */
  lemma ReleaseUndoesGet(l: Layout, p: Pool)
    requires PoolValid(l, p) && p.size > 0
    ensures var (q, block) := Get(l, p); Release(l, q, block) == (p, Success)
  {
    var chain :| FreeChain(p, chain);
    assert chain != [] && LinkAt(p, chain, 0);
    AddressIndex(l, p.first);
    var q := Get(l, p).0;
    assert q.links[p.first := q.first] == p.links;
  }

  // ---- whole histories

  datatype PoolOp = GetOp | ReleaseOp(block: int)

  /** The pool after a history of calls, with the set of blocks its callers hold: those returned by get and not
      since given back with success. */
  function History(l: Layout, ops: seq<PoolOp>): (r: (Pool, set<int>))
    requires l.Valid()
    ensures |r.0.links| == l.max && (0 <= r.0.first < l.max || r.0.first == NULL_IDX)
    ensures PoolValid(l, r.0)
  {
    if ops == [] then
      FreshChain(l.max);
      (Pool(FreshLinks(l.max), 0, l.max), {})
    else
      var (p, held) := History(l, ops[..|ops| - 1]);
      match ops[|ops| - 1]
      case GetOp =>
        var (q, block) := Get(l, p);
        assert PoolValid(l, q) && FirstInRange(l, q) by { GetKeepsValid(l, p); }
        (q, if block == NULL_BLOCK then held else held + {block})
      case ReleaseOp(block) =>
        var (q, r) := Release(l, p, block);
        assert PoolValid(l, q) && FirstInRange(l, q) by { ReleaseKeepsValid(l, p, block); }
        (q, if r == Success then held - {block} else held)
  }

  predicate FirstInRange(l: Layout, p: Pool) { 0 <= p.first < l.max || p.first == NULL_IDX }

  lemma GetKeepsValid(l: Layout, p: Pool)
    requires PoolValid(l, p)
    ensures PoolValid(l, Get(l, p).0) && FirstInRange(l, Get(l, p).0)
  {
    var chain :| FreeChain(p, chain);
    GetTakesHead(l, p, chain);
    if chain != [] {
      assert FreeChain(Get(l, p).0, chain[1..]);
    }
  }

  lemma ReleaseKeepsValid(l: Layout, p: Pool, block: int)
    requires PoolValid(l, p)
    ensures PoolValid(l, Release(l, p, block).0) && FirstInRange(l, Release(l, p, block).0)
  {
    var chain :| FreeChain(p, chain);
    ReleaseReturnsBlock(l, p, chain, block);
    var (q, r) := Release(l, p, block);
    if r == Success {
      assert FreeChain(q, [BlockIndex(l, block)] + chain);
    }
  }

  ghost predicate HeldExactly(l: Layout, p: Pool, held: set<int>) {
    && (forall k :: Detached(p, k) ==> l.Address(k) in held)
    && (forall b :: b in held ==> exists k :: Detached(p, k) && b == l.Address(k))
  }

  /** Over every history of calls, good or bad: the blocks in callers' hands are exactly those the index array
      marks detached, no get returns one of them again, no two of them share a byte, and none of them shares one with
      the bookkeeping. */
  lemma {:induction false} HeldBlocks(l: Layout, ops: seq<PoolOp>)
    requires l.Valid()
    ensures var (p, held) := History(l, ops);
            && HeldExactly(l, p, held)
            && (p.size > 0 ==> Get(l, p).1 !in held)
            && Apart(l, held)
            && forall b :: b in held ==> InBuffer(l, b)
  {
    var (p, held) := History(l, ops);
    HeldTracked(l, ops);
    forall b | b in held ensures InBuffer(l, b) {
      var k :| Detached(p, k) && b == l.Address(k);
      BlockInBuffer(l, k);
    }
    if p.size > 0 { NextIsNew(l, p, held); }
    HeldDisjoint(l, p, held);
  }

  ghost predicate Apart(l: Layout, blocks: set<int>) {
    forall a, b :: a in blocks && b in blocks && a != b ==> a + l.itemSize <= b || b + l.itemSize <= a
  }

  lemma {:induction false} HeldTracked(l: Layout, ops: seq<PoolOp>)
    requires l.Valid()
    ensures HeldExactly(l, History(l, ops).0, History(l, ops).1)
  {
    if ops != [] {
      var (p, held) := History(l, ops[..|ops| - 1]);
      HeldTracked(l, ops[..|ops| - 1]);
      match ops[|ops| - 1]
      case GetOp => TakenJoins(l, p, held);
      case ReleaseOp(block) => ReleasedLeaves(l, p, held, block);
    }
  }

  lemma TakenJoins(l: Layout, p: Pool, held: set<int>)
    requires PoolValid(l, p) && FirstInRange(l, p) && HeldExactly(l, p, held)
    ensures var (q, block) := Get(l, p);
            HeldExactly(l, q, if block == NULL_BLOCK then held else held + {block})
  {
    var chain :| FreeChain(p, chain);
    GetTakesHead(l, p, chain);
  }

  lemma ReleasedLeaves(l: Layout, p: Pool, held: set<int>, block: int)
    requires PoolValid(l, p) && HeldExactly(l, p, held)
    ensures var (q, r) := Release(l, p, block);
            HeldExactly(l, q, if r == Success then held - {block} else held)
  {
    var chain :| FreeChain(p, chain);
    ReleaseReturnsBlock(l, p, chain, block);
    var (q, r) := Release(l, p, block);
    if r == Success {
      var idx := BlockIndex(l, block);
      forall k | Detached(q, k) ensures l.Address(k) in held - {block} {
        AddressIndex(l, k);
      }
      forall b | b in held - {block} ensures exists k :: Detached(q, k) && b == l.Address(k) {
        var k :| Detached(p, k) && b == l.Address(k);
        assert Detached(q, k);
      }
    }
  }

  lemma NextIsNew(l: Layout, p: Pool, held: set<int>)
    requires PoolValid(l, p) && FirstInRange(l, p) && HeldExactly(l, p, held) && p.size > 0
    ensures Get(l, p).1 !in held
  {
    var chain :| FreeChain(p, chain);
    GetTakesHead(l, p, chain);
    if Get(l, p).1 in held {
      var k :| Detached(p, k) && Get(l, p).1 == l.Address(k);
      AddressIndex(l, k);
      AddressIndex(l, p.first);
    }
  }

  lemma HeldDisjoint(l: Layout, p: Pool, held: set<int>)
    requires PoolValid(l, p) && HeldExactly(l, p, held)
    ensures Apart(l, held)
  {
    forall a, b | a in held && b in held && a != b
      ensures a + l.itemSize <= b || b + l.itemSize <= a
    {
      var i :| Detached(p, i) && a == l.Address(i);
      var j :| Detached(p, j) && b == l.Address(j);
      if i < j { BlocksDisjoint(l, i, j); } else if j < i { BlocksDisjoint(l, j, i); }
    }
  }

  // ---- the allocator itself

  class PoolAllocator {
    var buffer: int
    var freeList: array<int>
    var bufferSize: int
    var size: int
    var sizeMax: int
    var itemSize: int
    var firstIdx: int

    constructor ()
    {
      buffer, bufferSize, size, sizeMax, itemSize, firstIdx := 0, 0, 0, 0, 0, 0;
      freeList := new int[0];
    }

    ghost function TheLayout(): Layout
      reads this
    {
      Layout(buffer, itemSize, sizeMax)
    }

    ghost function State(): Pool
      reads this, freeList
    {
      Pool(freeList[..], firstIdx, size)
    }

    ghost predicate Valid()
      reads this, freeList
    {
      freeList.Length == sizeMax && PoolValid(TheLayout(), State())
    }

    /** Lays the pool out over a block of memory; too small a block leaves the allocator untouched. */
    method Init(blockSize: int, numItems: int, memoryBlock: int, memorySize: int) returns (r: PoolResult)
      requires blockSize > 0 && numItems > 0 && memoryBlock > 0
      modifies this
      ensures r == if memorySize < numItems * (blockSize + SIZE_OF_INT) then NotEnoughMemory else Success
      ensures r == NotEnoughMemory ==> unchanged(this)
      ensures r == Success ==>
                && fresh(freeList) && Valid()
                && TheLayout() == Layout(memoryBlock, blockSize, numItems)
                && State() == History(TheLayout(), []).0
                && TheLayout().BookkeepingAddress() + SIZE_OF_INT * numItems <= memoryBlock + memorySize
    {
      hide FreeChain;
      var requestedSize := numItems * (blockSize + SIZE_OF_INT);
      if memorySize < requestedSize {
        return NotEnoughMemory;
      }
      itemSize := blockSize;
      size := numItems;
      bufferSize := blockSize * numItems;
      sizeMax := numItems;
      buffer := memoryBlock;
      var links := new int[numItems];
      freeList := links;
      for i := 0 to size - 1
        modifies links
        invariant forall j :: 0 <= j < i ==> links[j] == j + 1
      {
        freeList[i] := i + 1;
      }
      freeList[size - 1] := NULL_IDX;
      firstIdx := 0;
      assert freeList[..] == FreshLinks(numItems);
      FreshPool(TheLayout());
      return Success;
    }

    /** Hands out the head of the free list; null exactly when nothing is free. */
    method GetBlock() returns (block: int)
      requires Valid()
      modifies this, freeList
      ensures freeList == old(freeList) && TheLayout() == old(TheLayout()) && Valid()
      ensures old(PoolValid(TheLayout(), State()) && FirstInRange(TheLayout(), State()))
      ensures (State(), block) == old(Get(TheLayout(), State()))
      ensures block == NULL_BLOCK <==> old(size) == 0
    {
      ghost var l, p := TheLayout(), State();
      ghost var chain :| FreeChain(p, chain);
      GetTakesHead(l, p, chain);
      GetKeepsValid(l, p);
      if firstIdx == NULL_IDX {
        return NULL_BLOCK;
      }
      var detachedIdx := firstIdx;
      firstIdx := freeList[firstIdx];
      size := size - 1;
      freeList[detachedIdx] := DETACHED_IDX;
      block := buffer + detachedIdx * itemSize;
      assert State() == Get(l, p).0;
    }

    /** Takes a block back: refused when misaligned, outside the pool or not handed out. */
    method ReleaseBlock(block: int) returns (r: PoolResult)
      requires Valid()
      modifies this, freeList
      ensures freeList == old(freeList) && TheLayout() == old(TheLayout()) && Valid()
      ensures (State(), r) == old(Release(TheLayout(), State(), block))
      ensures r == Success <==> exists k :: old(Detached(State(), k)) && block == TheLayout().Address(k)
      ensures r != Success ==> State() == old(State())
    {
      ghost var l, p := TheLayout(), State();
      ghost var chain :| FreeChain(p, chain);
      ReleaseReturnsBlock(l, p, chain, block);
      ReleaseKeepsValid(l, p, block);
      var offset := block - buffer;
      if TruncMod(offset, itemSize) != 0 {
        return UnalignedFree;
      }
      var idx := TruncDiv(offset, itemSize);
      if idx < 0 || idx >= sizeMax {
        return OutOfRange;
      }
      if freeList[idx] != DETACHED_IDX {
        return DoubleFree;
      }
      freeList[idx] := firstIdx;
      firstIdx := idx;
      size := size + 1;
      assert State() == Release(l, p, block).0;
      return Success;
    }
  }
}
