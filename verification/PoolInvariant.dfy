/** Nothing the pool gives out overlaps anything else it holds or gives out, over every run. */
module PoolInvariant {
  import opened Options
  import opened Sequences
  import opened SizeClasses
  import opened PoolSpec

  // ---------- the invariant ----------

  ghost predicate AllApart(blocks: set<Block>) {
    forall a, b :: a in blocks && b in blocks && a != b ==> Apart(a, b)
  }

  ghost predicate Clear(blocks: set<Block>, r: Block) {
    r.len > 0 ==> forall b :: b in blocks ==> Apart(b, r)
  }

  ghost predicate InChunk(r: Block, chunks: set<Block>) {
    exists c :: c in chunks && Inside(r, c)
  }

  ghost predicate BlocksOk(blocks: set<Block>, chunks: set<Block>) {
    forall b :: b in blocks ==> b.len > 0 && b.addr > 0 && InChunk(b, chunks)
  }

  /** The blocks of list i are cut, at least as long as its slots, and not handed out. */
  ghost predicate ListOk(list: seq<Block>, i: nat, blocks: set<Block>, out: set<Block>)
    requires i < NumLists
  {
    Distinct(list) && forall b :: b in list ==> b in blocks && b !in out && b.len >= Index2SlotLength(i)
  }

  ghost predicate NoCommon(a: seq<Block>, b: seq<Block>) {
    forall x :: x in a ==> x !in b
  }

  ghost predicate ListsOk(free: seq<seq<Block>>, blocks: set<Block>, out: set<Block>) {
    && |free| == NumLists
    && (forall i :: 0 <= i < NumLists ==> ListOk(free[i], i, blocks, out))
    && (forall i, j :: 0 <= i < NumLists && 0 <= j < NumLists && i != j ==> NoCommon(free[i], free[j]))
  }

  ghost predicate UnusedOk(r: Block, blocks: set<Block>, chunks: set<Block>) {
    r.len > 0 ==> r.addr > 0 && Clear(blocks, r) && InChunk(r, chunks)
  }

  ghost predicate Inv(p: Pool) {
    && CanAlloc(p) && AllApart(p.blocks) && AllApart(p.chunks) && BlocksOk(p.blocks, p.chunks)
    && UnusedOk(Unused(p), p.blocks, p.chunks) && ListsOk(p.free, p.blocks, p.out) && p.out <= p.blocks
  }

  /** A range that is neither cut nor unused: ChunkAlloc has just taken it. */
  ghost predicate Held(p: Pool, r: Block)
    requires 0 <= Rest(p)
  {
    && r.len > 0 && r.addr > 0 && Clear(p.blocks, r) && InChunk(r, p.chunks)
    && (Rest(p) > 0 ==> Apart(r, Unused(p)))
  }

  // ---------- the parts of an allocation ----------

  lemma TakeKeeps(p: Pool, bytes: nat)
    requires Inv(p) && 0 < bytes <= Rest(p) && bytes % 512 == 0
    ensures Inv(Take(p, bytes)) && Held(Take(p, bytes), Block(p.startfree, bytes))
  {
    hide ListsOk, AllApart, BlocksOk;
    assert exists c :: c in p.chunks && Inside(Unused(p), c);
    var c :| c in p.chunks && Inside(Unused(p), c);
    assert Inside(Block(p.startfree, bytes), c) && Inside(Unused(Take(p, bytes)), c);
  }

  function GiveUpRest(p: Pool): Pool {
    p.(startfree := 0, endfree := 0)
  }

  lemma RestIsHeld(p: Pool, r: Block)
    requires Inv(p) && r.len > 0 && Inside(r, Unused(p))
    ensures Inv(GiveUpRest(p)) && Held(GiveUpRest(p), r)
  {
    hide ListsOk, AllApart, BlocksOk;
    var c :| c in p.chunks && Inside(Unused(p), c);
    assert Inside(r, c);
  }

  /** Cutting pairwise disjoint blocks out of ranges that are held. */
  lemma CutKeeps(p: Pool, cut: set<Block>)
    requires Inv(p) && AllApart(cut) && forall b :: b in cut ==> Held(p, b)
    ensures Inv(p.(blocks := p.blocks + cut)) && cut !! p.blocks
  {
    hide ListsOk, InChunk;
    var r := p.(blocks := p.blocks + cut);
    assert cut !! p.blocks by {
      forall b | b in cut ensures b !in p.blocks {
        assert Held(p, b);
      }
    }
    assert AllApart(r.blocks) by {
      forall a, b | a in r.blocks && b in r.blocks && a != b ensures Apart(a, b) {
        assert a in cut ==> Held(p, a);
        assert b in cut ==> Held(p, b);
      }
    }
    assert UnusedOk(Unused(r), r.blocks, r.chunks) by {
      forall b | b in r.blocks && Rest(p) > 0 ensures Apart(b, Unused(r)) {
        assert b in cut ==> Held(p, b);
      }
    }
    MoreBlocks(p.free, p.blocks, cut, p.out);
  }

  lemma MoreBlocks(free: seq<seq<Block>>, blocks: set<Block>, cut: set<Block>, out: set<Block>)
    requires ListsOk(free, blocks, out)
    ensures ListsOk(free, blocks + cut, out)
  {
    forall i | 0 <= i < NumLists ensures ListOk(free[i], i, blocks + cut, out) {
      assert ListOk(free[i], i, blocks, out);
    }
  }

  /** A list is replaced by blocks that are cut, in no list and not handed out. */
  lemma ListKeeps(free: seq<seq<Block>>, blocks: set<Block>, out: set<Block>, i: nat, list: seq<Block>)
    requires ListsOk(free, blocks, out) && i < NumLists && ListOk(list, i, blocks, out)
    requires forall j :: 0 <= j < NumLists && j != i ==> NoCommon(list, free[j]) && NoCommon(free[j], list)
    ensures ListsOk(free[i := list], blocks, out)
  {
  }

  lemma NotListed(free: seq<seq<Block>>, blocks: set<Block>, out: set<Block>, b: Block)
    requires ListsOk(free, blocks, out) && b !in blocks
    ensures forall j :: 0 <= j < NumLists ==> b !in free[j]
  {
    forall j | 0 <= j < NumLists ensures b !in free[j] {
      assert ListOk(free[j], j, blocks, out);
    }
  }

  lemma PushKeeps(p: Pool, i: nat, b: Block)
    requires Inv(p) && Held(p, b) && i < NumLists && b.len >= Index2SlotLength(i)
    ensures Inv(Push(p, i, b))
    ensures forall r :: Held(p, r) && Apart(r, b) ==> Held(Push(p, i, b), r)
  {
    CutKeeps(p, {b});
    NotListed(p.free, p.blocks, p.out, b);
    MoreBlocks(p.free, p.blocks, {b}, p.out);
    var blocks, list := p.blocks + {b}, [b] + p.free[i];
    assert ListOk(p.free[i], i, blocks, p.out);
    assert ListOk(list, i, blocks, p.out);
    forall j | 0 <= j < NumLists && j != i ensures NoCommon(list, p.free[j]) && NoCommon(p.free[j], list) {
      assert NoCommon(p.free[i], p.free[j]) && NoCommon(p.free[j], p.free[i]);
    }
    ListKeeps(p.free, blocks, p.out, i, list);
    hide ListsOk, AllApart, BlocksOk, InChunk;
  }

  lemma FileRestKeeps(p: Pool)
    requires Inv(p) && Rest(p) <= ThirdSlot
    ensures Inv(FileRest(p)) && Rest(FileRest(p)) == 0 && FileRest(p).chunks == p.chunks && FileRest(p).out == p.out
    ensures p.blocks <= FileRest(p).blocks
  {
    hide ListsOk, AllApart, BlocksOk, InChunk, Held;
    var q := GiveUpRest(p);
    if Rest(p) > 0 {
      var first := FirstLeftover(Rest(p));
      var a := Block(p.startfree, first);
      RestIsHeld(p, a);
      LeftoverSlot(Rest(p));
      PushKeeps(q, FindFreeListIndex(first), a);
      var more := Rest(p) - first;
      SecondLeftover(Rest(p));
      if more == 512 || more == 1024 {
        var b := Block(p.startfree + first, more);
        RestIsHeld(p, b);
        PushKeeps(Push(q, FindFreeListIndex(first), a), if more == 512 then 0 else 1, b);
      }
    }
  }

  /** The system never gives memory it has given before. */
  ghost predicate Fresh(p: Pool, c: Block) {
    c.addr > 0 && c.len > 0 && forall d :: d in p.chunks ==> Apart(c, d)
  }

  lemma ApartFromChunks(p: Pool, c: Block)
    requires Inv(p) && Fresh(p, c)
    ensures Clear(p.blocks, c) && c !in p.blocks
    ensures Rest(p) > 0 ==> Apart(c, Unused(p))
  {
    hide ListsOk;
    forall b | b in p.blocks ensures Apart(b, c) && b != c {
      var d :| d in p.chunks && Inside(b, d);
    }
    if Rest(p) > 0 {
      var d :| d in p.chunks && Inside(Unused(p), d);
    }
  }

  lemma MoreChunks(p: Pool, c: Block)
    requires Inv(p) && Fresh(p, c)
    ensures Inv(p.(chunks := p.chunks + {c})) && Held(p.(chunks := p.chunks + {c}), c)
  {
    hide ListsOk;
    ApartFromChunks(p, c);
    var chunks := p.chunks + {c};
    forall b | b in p.blocks ensures InChunk(b, chunks) {
      var d :| d in p.chunks && Inside(b, d);
      assert d in chunks;
    }
    if Rest(p) > 0 {
      var d :| d in p.chunks && Inside(Unused(p), d);
      assert d in chunks;
    }
    assert c in chunks && Inside(c, c);
  }

  lemma AddChunkKeeps(p: Pool, c: Block)
    requires Inv(p) && Rest(p) == 0 && Fresh(p, c) && c.len % 512 == 0
    ensures Inv(AddChunk(p, c))
  {
    MoreChunks(p, c);
    hide ListsOk, AllApart, BlocksOk, InChunk;
  }

  lemma ReuseKeeps(p: Pool, i: nat)
    requires Inv(p) && Rest(p) == 0 && i < NumLists && p.free[i] != []
    ensures Inv(Reuse(p, i)) && Reuse(p, i).chunks == p.chunks && Reuse(p, i).out == p.out
  {
    var b, r := p.free[i][0], Reuse(p, i);
    assert ListOk(p.free[i], i, p.blocks, p.out);
    assert b in p.free[i];
    assert UnusedOk(Unused(r), r.blocks, r.chunks) by {
      hide ListsOk;
      var c :| c in p.chunks && Inside(b, c);
      assert Inside(Unused(r), c);
    }
    assert ListsOk(r.free, r.blocks, r.out) by {
      forall j | 0 <= j < NumLists ensures ListOk(r.free[j], j, r.blocks, r.out) {
        assert ListOk(p.free[j], j, p.blocks, p.out);
        assert j != i ==> NoCommon(p.free[i], p.free[j]);
        TailOf(p.free[i]);
      }
      forall j, k | 0 <= j < NumLists && 0 <= k < NumLists && j != k ensures NoCommon(r.free[j], r.free[k]) {
        assert NoCommon(p.free[j], p.free[k]);
      }
    }
    hide ListsOk, InChunk;
  }

  lemma TailOf(s: seq<Block>)
    requires Distinct(s) && s != []
    ensures Distinct(s[1..]) && s[0] !in s[1..] && forall x :: x in s[1..] ==> x in s
  {
  }

  /** Handing out a block that is in no list. */
  lemma HandOutKeeps(p: Pool, b: Block)
    requires Inv(p) && b in p.blocks && forall j :: 0 <= j < NumLists ==> b !in p.free[j]
    ensures Inv(p.(out := p.out + {b}))
  {
    forall i | 0 <= i < NumLists ensures ListOk(p.free[i], i, p.blocks, p.out + {b}) {
      assert ListOk(p.free[i], i, p.blocks, p.out);
    }
    hide AllApart, BlocksOk, InChunk;
  }

  /** Taking the head of a list for a caller. */
  lemma PopKeeps(p: Pool, i: nat)
    requires Inv(p) && i < NumLists && p.free[i] != []
    ensures var b := p.free[i][0];
            Inv(p.(free := p.free[i := p.free[i][1..]], out := p.out + {b})) && b in p.blocks && b !in p.out
            && b.len >= Index2SlotLength(i)
  {
    var b, list := p.free[i][0], p.free[i][1..];
    assert ListOk(p.free[i], i, p.blocks, p.out);
    TailOf(p.free[i]);
    forall j | 0 <= j < NumLists && j != i ensures NoCommon(list, p.free[j]) && NoCommon(p.free[j], list) && b !in p.free[j] {
      assert NoCommon(p.free[i], p.free[j]) && NoCommon(p.free[j], p.free[i]);
    }
    ListKeeps(p.free, p.blocks, p.out, i, list);
    assert b in p.free[i];
    hide ListsOk, AllApart, BlocksOk, InChunk;
    HandOutKeeps(p.(free := p.free[i := list]), b);
  }

  // ---------- ChunkAlloc and Refill ----------

  /** A chunk for number blocks of the given length, from what malloc answers. */
  ghost predicate FreshAnswer(p: Pool, sys: Option<nat>, bytes: nat) {
    sys.Some? ==> Fresh(p, Block(sys.value, bytes))
  }

  lemma CutIsHeld(p: Pool, length: nat, number: nat)
    requires Inv(p) && IsSlotLength(length) && length < Rest(p) && number > 0
    ensures var r := Cut(p, length, number);
            Inv(r.p) && Held(r.p, Block(r.addr.value, length * r.number)) && r.p.blocks == p.blocks
  {
    var n := Count(Rest(p), length, number);
    AtLeast(length, n);
    Scaled(512, length / 512, n);
    assert length * n == 512 * (length / 512 * n);
    TakeKeeps(p, length * n);
  }

  /** A chunk that ChunkAlloc returns covers number blocks and nothing else is in it. */
  lemma ChunkAllocKeeps(p: Pool, length: nat, number: nat, sys: Option<nat>)
    requires Inv(p) && IsSlotLength(length) && number > 0
    requires Rest(p) <= length ==> FreshAnswer(p, sys, 2 * (length * number))
    ensures var r := ChunkAlloc(p, length, number, sys);
            && Inv(r.p) && 1 <= r.number <= number && r.p.out == p.out
            && (r.addr.None? ==> sys.None?)
            && (r.addr.Some? ==> Held(r.p, Block(r.addr.value, length * r.number)))
  {
    hide ListsOk, AllApart, BlocksOk, InChunk, Held, UnusedOk;
    ChunkAllocIs(p, length, number, sys);
    if Rest(p) > length {
      CutIsHeld(p, length, number);
    } else {
      FileRestKeeps(p);
      FitsTwice(length, number);
      var q := Refreshed(p, length, number, sys);
      if q.Some? {
        if sys.Some? {
          AddChunkKeeps(FileRest(p), Block(sys.value, 2 * (length * number)));
        } else {
          ReuseKeeps(FileRest(p), FirstList(FileRest(p).free, FindFreeListIndex(length) + 1).value);
        }
        CutIsHeld(q.value, length, number);
      }
    }
  }

  lemma PiecesApart(addr: nat, length: nat, number: nat, j: nat, k: nat)
    requires j < k < number && length > 0
    ensures Apart(Pieces(addr, length, number)[j], Pieces(addr, length, number)[k])
  {
    assert length * k == length * j + length * (k - j);
    AtLeast(length, k - j);
  }

  lemma PiecesInTurn(addr: nat, length: nat, number: nat, j: nat, k: nat)
    requires j < k < number && length > 0
    ensures Pieces(addr, length, number)[j].addr + length <= Pieces(addr, length, number)[k].addr
  {
    assert length * k == length * j + length * (k - j);
    AtLeast(length, k - j);
  }

  lemma PieceInside(addr: nat, length: nat, number: nat, k: nat)
    requires k < number && length > 0
    ensures Inside(Pieces(addr, length, number)[k], Block(addr, length * number))
  {
    assert length * number == length * k + length * (number - k);
    AtLeast(length, number - k);
  }

  lemma PartIsHeld(p: Pool, r: Block, b: Block)
    requires 0 <= Rest(p) && Held(p, r) && Inside(b, r) && b.len > 0
    ensures Held(p, b)
  {
    var c :| c in p.chunks && Inside(r, c);
    assert Inside(b, c);
  }

  lemma PiecesKeep(p: Pool, addr: nat, length: nat, number: nat)
    requires Inv(p) && length > 0 && number > 0 && Held(p, Block(addr, length * number))
    ensures var cut := SetOf(Pieces(addr, length, number));
            Inv(p.(blocks := p.blocks + cut)) && cut !! p.blocks && Distinct(Pieces(addr, length, number))
  {
    var pieces := Pieces(addr, length, number);
    forall j, k | 0 <= j < k < number ensures pieces[j] != pieces[k] && Apart(pieces[j], pieces[k]) {
      PiecesApart(addr, length, number, j, k);
    }
    forall b | b in pieces ensures Held(p, b) {
      var k :| 0 <= k < number && pieces[k] == b;
      PieceInside(addr, length, number, k);
      PartIsHeld(p, Block(addr, length * number), b);
    }
    assert AllApart(SetOf(pieces)) by {
      forall a, b | a in pieces && b in pieces && a != b ensures Apart(a, b) {
        var j :| 0 <= j < number && pieces[j] == a;
        var k :| 0 <= k < number && pieces[k] == b;
      }
    }
    hide Held, Pieces;
    CutKeeps(p, SetOf(pieces));
  }

  lemma RefillKeeps(p: Pool, length: nat, sys: Option<nat>)
    requires Inv(p) && IsSlotLength(length) && FreshAnswer(p, sys, 2 * (length * RefillCount))
    ensures var r := Refill(p, length, sys);
            && Inv(r.p) && r.p.out == p.out && (r.block.None? ==> sys.None?)
            && (r.block.Some? ==>
                  r.block.value in r.p.blocks && r.block.value !in p.out && r.block.value.len == length
                  && forall j :: 0 <= j < NumLists ==> r.block.value !in r.p.free[j])
    ensures var r := Refill(p, length, sys);
            var c := ChunkAlloc(p, length, RefillCount, sys);
            r.block.Some? ==>
              && c.addr.Some? && r.block.value.addr == c.addr.value
              && forall k :: 1 <= k < c.number ==>
                   Pieces(c.addr.value, length, c.number)[k] in r.p.free[FindFreeListIndex(length)]
  {
    ChunkAllocKeeps(p, length, RefillCount, sys);
    var r := ChunkAlloc(p, length, RefillCount, sys);
    if r.addr.Some? {
      var pieces := Pieces(r.addr.value, length, r.number);
      hide ListsOk, AllApart, BlocksOk, InChunk, Held, UnusedOk, ChunkAlloc, Clear;
      PiecesKeep(r.p, r.addr.value, length, r.number);
      assert pieces[0] in SetOf(pieces) && pieces[0] !in r.p.blocks;
      assert r.p.out <= r.p.blocks;
      if r.number == 1 {
        assert SetOf(pieces) == {pieces[0]};
        NotListed(r.p.free, r.p.blocks, r.p.out, pieces[0]);
      } else {
        ListPieces(r.p, pieces, FindFreeListIndex(length));
      }
    }
  }

  lemma ListPieces(p: Pool, pieces: seq<Block>, i: nat)
    requires Inv(p) && Inv(p.(blocks := p.blocks + SetOf(pieces))) && SetOf(pieces) !! p.blocks && Distinct(pieces)
    requires |pieces| > 1 && i < NumLists && forall b :: b in pieces ==> b.len >= Index2SlotLength(i)
    ensures var r := p.(free := p.free[i := pieces[1..]], blocks := p.blocks + SetOf(pieces));
            Inv(r) && pieces[0] in r.blocks && forall j :: 0 <= j < NumLists ==> pieces[0] !in r.free[j]
  {
    var blocks, list := p.blocks + SetOf(pieces), pieces[1..];
    TailOf(pieces);
    forall b | b in pieces ensures b !in p.blocks && forall j :: 0 <= j < NumLists ==> b !in p.free[j] {
      assert b in SetOf(pieces);
      NotListed(p.free, p.blocks, p.out, b);
    }
    assert ListOk(list, i, blocks, p.out);
    ListKeeps(p.free, blocks, p.out, i, list);
    hide ListsOk, AllApart, BlocksOk, InChunk;
  }

  // ---------- RocketCoMalloc over runs ----------

  /** What malloc may answer to a request for n bytes. */
  ghost predicate GoodAnswer(p: Pool, n: nat, sys: Option<nat>) {
    FreshAnswer(p, sys, if n > ThirdSlot then n else 2 * (DataAlignment(n) * RefillCount))
  }

  /** A block handed out is as long as the request and was not handed out before. */
  lemma MallocKeeps(p: Pool, n: nat, sys: Option<nat>)
    requires Inv(p) && n > 0 && GoodAnswer(p, n, sys)
    ensures var r := Malloc(p, n, sys);
            && Inv(r.p)
            && match r.block {
                 case None => r.p.out == p.out && sys.None?
                 case Some(b) => b.len >= n && b !in p.out && r.p.out == p.out + {b} }
  {
    hide AllApart, BlocksOk, InChunk, UnusedOk, ListsOk, ChunkAlloc;
    if n > ThirdSlot {
      if sys.Some? {
        var b := Block(sys.value, n);
        ApartFromChunks(p, b);
        MoreChunks(p, b);
        var q := p.(chunks := p.chunks + {b});
        CutOne(q, b);
        NotListed(q.free, q.blocks, q.out, b);
        HandOutKeeps(q.(blocks := q.blocks + {b}), b);
      }
    } else {
      AlignmentIsSlotLength(n);
      var i := FindFreeListIndex(DataAlignment(n));
      if p.free[i] == [] {
        var r := Refill(p, DataAlignment(n), sys);
        RefillKeeps(p, DataAlignment(n), sys);
        if r.block.Some? {
          HandOutKeeps(r.p, r.block.value);
        }
      } else {
        PopKeeps(p, i);
      }
    }
  }

  lemma CutOne(p: Pool, b: Block)
    requires Inv(p) && Held(p, b)
    ensures Inv(p.(blocks := p.blocks + {b})) && b !in p.blocks
  {
    CutKeeps(p, {b});
  }

  /** An allocation fails exactly when its list is empty, the unused range has at most one block in it,
      the system has no memory, and neither has any list of longer blocks. */
  lemma FailsIff(p: Pool, n: nat, sys: Option<nat>)
    requires Inv(p) && 0 < n <= ThirdSlot
    ensures IsSlotLength(DataAlignment(n))
    ensures var length := DataAlignment(n);
            var i := FindFreeListIndex(length);
            Malloc(p, n, sys).block.None? <==>
              p.free[i] == [] && Rest(p) <= length && sys.None?
              && forall j :: i < j < NumLists ==> FileRest(p).free[j] == []
  {
    AlignmentIsSlotLength(n);
    ChunkAllocIs(p, DataAlignment(n), RefillCount, sys);
    hide Inv, ChunkAlloc;
  }

  datatype Request = Request(n: nat, sys: Option<nat>)

  /** Requests of positive length, for which the system gives no memory twice. */
  ghost predicate Possible(p: Pool, requests: seq<Request>)
    requires Inv(p)
    decreases |requests|
  {
    requests != [] ==>
      && requests[0].n > 0 && GoodAnswer(p, requests[0].n, requests[0].sys)
      && (MallocKeeps(p, requests[0].n, requests[0].sys);
          Possible(Malloc(p, requests[0].n, requests[0].sys).p, requests[1..]))
  }

  /** The pool after a run of allocations. */
  ghost function After(p: Pool, requests: seq<Request>): (r: Pool)
    requires Inv(p) && Possible(p, requests)
    ensures Inv(r)
    decreases |requests|
  {
    if requests == [] then p
    else
      MallocKeeps(p, requests[0].n, requests[0].sys);
      After(Malloc(p, requests[0].n, requests[0].sys).p, requests[1..])
  }

  /** A pool as its constructor leaves it (lines 36-48). */
  function NewPool(): (p: Pool)
    ensures Inv(p)
  {
    Pool(seq(NumLists, _ => []), 0, 0, {}, {}, {})
  }

  /** Two answers of the allocator, and an answer and what the allocator still holds, never overlap. */
  ghost predicate Safe(p: Pool)
    requires Inv(p)
  {
    && (forall a, b :: a in p.out && b in p.out && a != b ==> Apart(a, b))
    && (forall a :: a in p.out ==> InChunk(a, p.chunks) && Clear({a}, Unused(p)))
    && (forall a, i, k :: a in p.out && 0 <= i < NumLists && 0 <= k < |p.free[i]| ==> Apart(a, p.free[i][k]))
  }

  lemma InvIsSafe(p: Pool)
    requires Inv(p)
    ensures Safe(p)
  {
    forall a | a in p.out ensures a in p.blocks && InChunk(a, p.chunks) && Clear({a}, Unused(p)) {
      hide ListsOk;
    }
    forall a, i, k | a in p.out && 0 <= i < NumLists && 0 <= k < |p.free[i]| ensures Apart(a, p.free[i][k]) {
      assert ListOk(p.free[i], i, p.blocks, p.out);
      assert p.free[i][k] in p.free[i];
    }
  }

  /** Whatever run of allocations, and whenever malloc fails in it. Blocks once handed out stay so. */
  lemma {:induction false} RunIsSafe(p: Pool, requests: seq<Request>)
    requires Inv(p) && Possible(p, requests)
    ensures Inv(After(p, requests)) && Safe(After(p, requests)) && p.out <= After(p, requests).out
    decreases |requests|
  {
    InvIsSafe(p);
    hide Inv, Safe, Malloc, GoodAnswer;
    if requests != [] {
      MallocKeeps(p, requests[0].n, requests[0].sys);
      RunIsSafe(Malloc(p, requests[0].n, requests[0].sys).p, requests[1..]);
    }
  }

  /** From a new pool on, no answer of the allocator overlaps another one or what the allocator holds. */
  lemma NewPoolIsSafe(requests: seq<Request>)
    requires Possible(NewPool(), requests)
    ensures Safe(After(NewPool(), requests))
  {
    hide Inv, Safe, NewPool, Possible, After;
    RunIsSafe(NewPool(), requests);
  }

  lemma CanAllocNow(p: Pool)
    requires Inv(p)
    ensures CanAlloc(p)
  {
  }
}
