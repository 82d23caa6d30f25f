/** RocketCoAlloctor, updated in place (RocketCoAlloctor.cpp:133-165, 297-450). Addresses are numbers and
    0 is the null pointer; the nodes lie in the free blocks themselves. */
module PoolClass {
  import opened Options
  import opened Sequences
  import opened SizeClasses
  import opened PoolSpec
  import opened PoolInvariant

  datatype FreeListNode = FreeListNode(prev: nat, next: nat, slot: nat, item_length: nat)

  type Nodes = map<nat, FreeListNode>

  const NodeBytes: nat := 32 // sizeof(FreeListNode)

  function NodeAt(nodes: Nodes, a: nat): FreeListNode {
    if a in nodes then nodes[a] else FreeListNode(0, 0, 0, 0)
  }

  function Head(list: seq<Block>): nat {
    if list == [] then 0 else list[0].addr
  }

  ghost predicate NodeOk(n: FreeListNode, list: seq<Block>, k: nat, i: nat)
    requires k < |list|
  {
    n.next == Head(list[k+1..]) && n.item_length == list[k].len && n.slot == i
  }

  /** The nodes from head on are the blocks of list i, in order. */
  ghost predicate Linked(nodes: Nodes, head: nat, list: seq<Block>, i: nat) {
    head == Head(list) && forall k :: 0 <= k < |list| ==> NodeOk(NodeAt(nodes, list[k].addr), list, k, i)
  }

  /** Each node names the one before it as prev, and its length is also marked at its end. */
  ghost predicate Chained(nodes: Nodes, list: seq<Block>) {
    forall k :: 0 <= k < |list| ==> ChainedAt(nodes, list, k)
  }

  ghost predicate ChainedAt(nodes: Nodes, list: seq<Block>, k: nat)
    requires k < |list|
  {
    NodeAt(nodes, list[k].addr).prev == (if k == 0 then 0 else list[k-1].addr) && Marked(nodes, list[k])
  }

  ghost predicate Marked(nodes: Nodes, b: Block) {
    b.len >= NodeBytes && NodeAt(nodes, b.addr + b.len - NodeBytes).item_length == b.len
  }

  ghost predicate Below(list: seq<Block>, a: nat) {
    forall k :: 0 <= k < |list| ==> list[k].addr + list[k].len <= a
  }

  lemma ChainGrows(nodes: Nodes, was: Nodes, list: seq<Block>, b: Block)
    requires list != [] && Chained(was, list) && Below(list, b.addr) && Marked(nodes, b)
    requires NodeAt(nodes, b.addr).prev == list[|list| - 1].addr
    requires forall a: nat :: !(b.addr <= a < b.addr + b.len) ==>
      NodeAt(nodes, a).prev == NodeAt(was, a).prev && NodeAt(nodes, a).item_length == NodeAt(was, a).item_length
    ensures Chained(nodes, list + [b])
  {
    var r := list + [b];
    forall k | 0 <= k < |r| ensures ChainedAt(nodes, r, k) {
      if k < |list| {
        assert ChainedAt(was, list, k);
        assert list[k].addr + list[k].len <= b.addr;
      }
    }
  }

  /** No node of the lists lies in r. */
  ghost predicate Outside(list: seq<Block>, r: Block) {
    forall k :: 0 <= k < |list| ==> !(r.addr <= list[k].addr < r.addr + r.len)
  }

  /** The nodes differ only inside r, and in what they name as previous. */
  ghost predicate ChangedIn(nodes: Nodes, was: Nodes, r: Block) {
    forall a: nat :: !(r.addr <= a < r.addr + r.len) ==> NodeAt(nodes, a) == NodeAt(was, a).(prev := NodeAt(nodes, a).prev)
  }

  lemma LinkedKept(nodes: Nodes, was: Nodes, r: Block, head: nat, list: seq<Block>, i: nat)
    requires Linked(was, head, list, i) && ChangedIn(nodes, was, r) && Outside(list, r)
    ensures Linked(nodes, head, list, i)
  {
    forall k | 0 <= k < |list| ensures NodeOk(NodeAt(nodes, list[k].addr), list, k, i) {
      assert NodeOk(NodeAt(was, list[k].addr), list, k, i);
    }
  }

  lemma HeldIsOutside(p: Pool, r: Block, i: nat)
    requires Inv(p) && Held(p, r) && i < NumLists
    ensures Outside(p.free[i], r)
  {
    assert ListOk(p.free[i], i, p.blocks, p.out);
    forall k | 0 <= k < |p.free[i]| ensures !(r.addr <= p.free[i][k].addr < r.addr + r.len) {
      assert p.free[i][k] in p.free[i];
    }
  }

  lemma OutIsOutside(p: Pool, b: Block, i: nat)
    requires Inv(p) && b in p.out && i < NumLists
    ensures Outside(p.free[i], b)
  {
    InvIsSafe(p);
    assert ListOk(p.free[i], i, p.blocks, p.out);
    forall k | 0 <= k < |p.free[i]| ensures !(b.addr <= p.free[i][k].addr < b.addr + b.len) {
      assert p.free[i][k] in p.free[i] && Apart(b, p.free[i][k]);
    }
  }

  lemma LinkedTail(nodes: Nodes, head: nat, list: seq<Block>, i: nat)
    requires Linked(nodes, head, list, i) && list != []
    ensures Linked(nodes, NodeAt(nodes, head).next, list[1..], i) && head == list[0].addr
  {
    assert NodeOk(NodeAt(nodes, list[0].addr), list, 0, i);
    forall k | 0 <= k < |list| - 1 ensures NodeOk(NodeAt(nodes, list[1..][k].addr), list[1..], k, i) {
      assert NodeOk(NodeAt(nodes, list[k+1].addr), list, k + 1, i);
      assert list[1..][k+1..] == list[k+2..];
    }
  }

  lemma LinkedFront(nodes: Nodes, b: Block, list: seq<Block>, i: nat)
    requires Linked(nodes, Head(list), list, i)
    requires NodeAt(nodes, b.addr).next == Head(list) && NodeAt(nodes, b.addr).item_length == b.len
    requires NodeAt(nodes, b.addr).slot == i
    ensures Linked(nodes, b.addr, [b] + list, i)
  {
    var r := [b] + list;
    forall k | 0 <= k < |r| ensures NodeOk(NodeAt(nodes, r[k].addr), r, k, i) {
      if k > 0 {
        assert NodeOk(NodeAt(nodes, list[k-1].addr), list, k - 1, i);
        assert r[k+1..] == list[k..];
      } else {
        assert r[1..] == list;
      }
    }
  }

  lemma GiveUpKeeps(p: Pool)
    requires Inv(p)
    ensures Inv(GiveUpRest(p)) && CanAlloc(p)
  {
    hide ListsOk, AllApart, BlocksOk, InChunk;
  }

  lemma LinkedGrows(nodes: Nodes, was: Nodes, list: seq<Block>, b: Block, i: nat)
    requires list != [] && Linked(was, list[0].addr, list, i) && Outside(list, b)
    requires var last := list[|list| - 1].addr;
             && ChangedIn(nodes, was[last := NodeAt(was, last).(next := b.addr)], b)
             && (forall k :: 0 <= k < |list| - 1 ==> list[k].addr != last)
    requires NodeAt(nodes, b.addr).next == 0 && NodeAt(nodes, b.addr).item_length == b.len && NodeAt(nodes, b.addr).slot == i
    ensures Linked(nodes, list[0].addr, list + [b], i)
  {
    var r := list + [b];
    forall k | 0 <= k < |r| ensures NodeOk(NodeAt(nodes, r[k].addr), r, k, i) {
      if k < |list| {
        assert r[k] == list[k];
        assert NodeOk(NodeAt(was, list[k].addr), list, k, i);
        assert r[k+1..] == list[k+1..] + [b];
      } else {
        assert r[k+1..] == [];
      }
    }
  }

  lemma PiecesInOrder(chunk: nat, length: nat, number: nat, i: nat)
    requires 1 <= i < i + 1 < number && length > 0
    ensures var pieces := Pieces(chunk, length, number);
            var list := pieces[1..i+1];
            && pieces[1..i+2] == list + [pieces[i+1]] && Outside(list, pieces[i+1])
            && (forall k :: 0 <= k < |list| - 1 ==> list[k].addr != list[|list| - 1].addr)
            && pieces[i+1].addr == pieces[i].addr + length && Below(list, pieces[i+1].addr)
  {
    var pieces := Pieces(chunk, length, number);
    var list := pieces[1..i+1];
    forall k | 0 <= k < |list| ensures !(pieces[i+1].addr <= list[k].addr < pieces[i+1].addr + length) {
      PiecesApart(chunk, length, number, k + 1, i + 1);
    }
    forall k | 0 <= k < |list| ensures list[k].addr + list[k].len <= pieces[i+1].addr {
      PiecesInTurn(chunk, length, number, k + 1, i + 1);
    }
    forall k | 0 <= k < |list| - 1 ensures list[k].addr != list[|list| - 1].addr {
      PiecesApart(chunk, length, number, k + 1, i);
    }
  }

  class RocketCoAlloctor {
    const free_list: array<nat>
    var startfree: nat
    var endfree: nat
    var nodes: Nodes
    ghost var pool: Pool

    ghost predicate Lists()
      reads this, free_list
    {
      && free_list.Length == NumLists && Inv(pool)
      && forall i :: 0 <= i < NumLists ==> Linked(nodes, free_list[i], pool.free[i], i)
    }

    ghost predicate Valid()
      reads this, free_list
    {
      Lists() && startfree == pool.startfree && endfree == pool.endfree
    }

    constructor ()
      ensures Valid() && fresh(free_list) && pool == NewPool()
    {
      free_list := new nat[NumLists](_ => 0);
      startfree, endfree := 0, 0;
      nodes, pool := map[], NewPool();
      new;
      hide Inv;
    }

    method MarkBlock(ptr: nat, len: nat)
      requires len >= NodeBytes
      modifies this`nodes
      ensures nodes == old(nodes)[ptr + len - NodeBytes := NodeAt(old(nodes), ptr + len - NodeBytes).(item_length := len)]
    {
      var last := ptr + len - NodeBytes;
      nodes := nodes[last := NodeAt(nodes, last).(item_length := len)];
    }

    /** Files the first bytes of the unused range under a list. */
    method UseRemainingSpace(head_index: nat, remaining: nat)
      requires Lists() && head_index < NumLists && remaining >= Index2SlotLength(head_index)
      requires Held(pool, Block(startfree, remaining))
      modifies this`nodes, this`pool, free_list
      ensures Lists() && pool == Push(old(pool), head_index, Block(startfree, remaining))
      ensures NodeAt(nodes, startfree).prev == 0 && Marked(nodes, Block(startfree, remaining))
      ensures old(free_list[head_index]) != 0 ==> NodeAt(nodes, old(free_list[head_index])).prev == startfree
    {
      ghost var b, was, heads := Block(startfree, remaining), nodes, free_list[..];
      forall i | 0 <= i < NumLists ensures Linked(was, heads[i], pool.free[i], i) && Outside(pool.free[i], b) {
        HeldIsOutside(pool, b, i);
      }
      PushKeeps(pool, head_index, b);
      hide Inv, Held, Index2SlotLength, Linked;
      PushFront(head_index, remaining);
      pool := Push(pool, head_index, b);
      forall i | 0 <= i < NumLists ensures Linked(nodes, free_list[i], pool.free[i], i) {
        LinkedKept(nodes, was, b, heads[i], old(pool).free[i], i);
        if i == head_index {
          LinkedFront(nodes, b, old(pool).free[i], i);
        }
      }
    }

    /** The stores of it: a node at the front of a list, and its length at its end. */
    method PushFront(head_index: nat, remaining: nat)
      requires free_list.Length == NumLists && head_index < NumLists && remaining >= 2 * NodeBytes && startfree != 0
      requires !(startfree <= free_list[head_index] < startfree + remaining)
      modifies this`nodes, free_list
      ensures free_list[..] == old(free_list[..])[head_index := startfree]
      ensures NodeAt(nodes, startfree) == FreeListNode(0, old(free_list[head_index]), head_index, remaining)
      ensures Marked(nodes, Block(startfree, remaining)) && ChangedIn(nodes, old(nodes), Block(startfree, remaining))
      ensures old(free_list[head_index]) != 0 ==> NodeAt(nodes, old(free_list[head_index])).prev == startfree
    {
      var my_free_list := free_list[head_index];
      nodes := nodes[startfree := NodeAt(nodes, startfree).(prev := 0, next := my_free_list)];
      if my_free_list != 0 {
        nodes := nodes[my_free_list := NodeAt(nodes, my_free_list).(prev := startfree)];
      }
      free_list[head_index] := startfree;
      nodes := nodes[startfree := NodeAt(nodes, startfree).(slot := head_index, item_length := remaining)];
      MarkBlock(startfree, remaining);
    }

    /** The part of ChunkAlloc that uses up what is left (lines 385-412). */
    method UseUpRest()
      requires Valid() && Rest(pool) <= ThirdSlot
      modifies this`startfree, this`nodes, this`pool, free_list
      ensures Lists() && pool == FileRest(old(pool))
    {
      ghost var p := pool;
      hide Inv, Linked, Held, FirstLeftover, DataAlignment, FindFreeListIndex, Index2SlotLength;
      var Remaining := endfree - startfree;
      GiveUpKeeps(p);
      pool := GiveUpRest(pool);
      if Remaining > 0 {
        var target := DataAlignment(Remaining);
        var interval := target - Remaining;
        FirstLeftoverIs(Remaining);
        SecondLeftover(Remaining);
        LeftoverSlot(Remaining);
        FirstSlots();
        ghost var first, more := FirstLeftover(Remaining), interval;
        RestIsHeld(p, Block(startfree, first));
        Remaining := Remaining - interval;
        var head_index := FindFreeListIndex(Remaining);
        UseRemainingSpace(head_index, Remaining);
        if more > 0 {
          RestIsHeld(p, Block(startfree + first, more));
          PushKeeps(GiveUpRest(p), head_index, Block(startfree, first));
        }
        startfree := startfree + Remaining;
        if interval == 512 {
          UseRemainingSpace(0, 512);
        } else if interval == 1024 {
          UseRemainingSpace(1, 1024);
        }
      }
    }

    /** The first list from start on that is not empty, 96 if there is none. */
    method LongerList(start: nat) returns (i: nat)
      requires Lists() && start <= NumLists
      ensures start <= i <= NumLists
      ensures FirstList(pool.free, start) == if i == NumLists then None else Some(i)
    {
      i := start;
      while i < NumLists && free_list[i] == 0
        invariant start <= i <= NumLists && FirstList(pool.free, i) == FirstList(pool.free, start)
      {
        EmptyList(i);
        i := i + 1;
      }
      if i < NumLists {
        EmptyList(i);
      }
    }

    /** The head of list i becomes the unused range. */
    method TakeList(i: nat)
      requires Lists() && i < NumLists && pool.free[i] != [] && Rest(pool) == 0
      modifies this`startfree, this`endfree, this`pool, free_list
      ensures Valid() && pool == Reuse(old(pool), i)
    {
      var my_free_list := free_list[i];
      LinkedTail(nodes, my_free_list, pool.free[i], i);
      free_list[i] := NodeAt(nodes, my_free_list).next;
      startfree := my_free_list;
      endfree := startfree + Index2SlotLength(i);
      ReuseKeeps(pool, i);
      pool := Reuse(pool, i);
      hide Inv, Linked;
    }

    /** ChunkAlloc from a new chunk on, or from the head of a longer list (lines 414-433). */
    method Refresh(length: nat, number: nat, sys: Option<nat>) returns (ok: bool)
      requires Valid() && IsSlotLength(length) && number > 0 && Rest(pool) <= length
      requires FreshAnswer(pool, sys, 2 * (length * number))
      modifies this`startfree, this`endfree, this`nodes, this`pool, free_list
      ensures Valid()
      ensures var q := Refreshed(old(pool), length, number, sys);
              ok == q.Some? && pool == if ok then q.value else FileRest(old(pool))
    {
      hide Inv, Linked;
      var Bytes_to_get := 2 * (length * number);
      FileRestKeeps(pool);
      UseUpRest();
      FitsTwice(length, number);
      if sys.None? {
        startfree := 0;
        var i := LongerList(FindFreeListIndex(length) + 1);
        ok := i < NumLists;
        if ok {
          TakeList(i);
        } else {
          endfree := 0;
        }
      } else {
        ok := true;
        startfree := sys.value;
        endfree := startfree + Bytes_to_get;
        AddChunkKeeps(pool, Block(sys.value, Bytes_to_get));
        pool := AddChunk(pool, Block(sys.value, Bytes_to_get));
      }
    }

    /** ChunkAlloc; it calls itself at most once. A null result is 0. */
    method ChunkAlloc(length: nat, number: nat, sys: Option<nat>) returns (chunk: nat, blocks: nat)
      requires Valid() && IsSlotLength(length) && number > 0
      requires Rest(pool) <= length ==> FreshAnswer(pool, sys, 2 * (length * number))
      modifies this`startfree, this`endfree, this`nodes, this`pool, free_list
      ensures Valid()
      ensures var r := PoolSpec.ChunkAlloc(old(pool), length, number, sys);
              pool == r.p && blocks == r.number && chunk == (if r.addr.Some? then r.addr.value else 0)
      decreases if Rest(pool) > length then 0 else 1
    {
      ghost var p := pool;
      ChunkAllocKeeps(p, length, number, sys);
      ChunkAllocIs(p, length, number, sys);
      FitsTwice(length, number);
      hide Inv, Linked, Held, PoolSpec.ChunkAlloc, IsSlotLength, Refreshed;
      var total_bytes := length * number;
      var Remaining := endfree - startfree;
      if Remaining > total_bytes {
        chunk, blocks := startfree, number;
        startfree := startfree + total_bytes;
        pool := Take(pool, total_bytes);
      } else if Remaining > length {
        blocks := Remaining / length;
        FitsIn(Remaining, length);
        chunk := startfree;
        startfree := startfree + length * blocks;
        pool := Take(pool, length * blocks);
      } else {
        var ok := Refresh(length, number, sys);
        if !ok {
          return 0, number;
        }
        chunk, blocks := ChunkAlloc(length, number, sys);
      }
    }

    lemma EmptyList(i: nat)
      requires Lists() && i < NumLists
      ensures free_list[i] == 0 <==> pool.free[i] == []
    {
      assert Linked(nodes, free_list[i], pool.free[i], i);
      if pool.free[i] != [] {
        assert ListOk(pool.free[i], i, pool.blocks, pool.out);
        assert pool.free[i][0] in pool.free[i];
      }
    }

    /** A piece of a new chunk becomes the last node of a list. */
    method InitNode(ptr: nat, length: nat, slot: nat, prev: nat)
      requires length >= 2 * NodeBytes
      modifies this`nodes
      ensures ChangedIn(nodes, old(nodes), Block(ptr, length))
      ensures NodeAt(nodes, ptr) == FreeListNode(prev, 0, slot, length) && Marked(nodes, Block(ptr, length))
      ensures forall a: nat :: !(ptr <= a < ptr + length) ==> NodeAt(nodes, a) == NodeAt(old(nodes), a)
    {
      nodes := nodes[ptr := FreeListNode(prev, 0, slot, length)];
      MarkBlock(ptr, length);
    }

    /** The loop of Refill (lines 341-362): all pieces but the first become a list. */
    method LinkPieces(chunk: nat, length: nat, number: nat, refill_index: nat)
      requires number > 1 && length >= 2 * NodeBytes && free_list.Length == NumLists && refill_index < NumLists
      modifies this`nodes, free_list
      ensures Linked(nodes, free_list[refill_index], Pieces(chunk, length, number)[1..], refill_index)
      ensures Chained(nodes, Pieces(chunk, length, number)[1..])
      ensures ChangedIn(nodes, old(nodes), Block(chunk, length * number))
      ensures forall i :: 0 <= i < NumLists && i != refill_index ==> free_list[i] == old(free_list[i])
    {
      ghost var pieces := Pieces(chunk, length, number);
      var next_obj := chunk + length;
      free_list[refill_index] := next_obj;
      InitNode(next_obj, length, refill_index, 0);
      PieceInside(chunk, length, number, 1);
      assert pieces[1..2] == [pieces[1]] && pieces[1].addr == next_obj;
      LinkedFront(nodes, pieces[1], [], refill_index);
      var i := 1;
      while i < number - 1
        invariant 1 <= i <= number - 1 && next_obj == pieces[i].addr
        invariant free_list[refill_index] == pieces[1].addr
        invariant forall j :: 0 <= j < NumLists && j != refill_index ==> free_list[j] == old(free_list[j])
        invariant Linked(nodes, pieces[1].addr, pieces[1..i+1], refill_index) && Chained(nodes, pieces[1..i+1])
        invariant ChangedIn(nodes, old(nodes), Block(chunk, length * number))
      {
        PiecesInOrder(chunk, length, number, i);
        next_obj := LinkNext(next_obj, length, refill_index, pieces[1..i+1]);
        PieceInside(chunk, length, number, i);
        PieceInside(chunk, length, number, i + 1);
        i := i + 1;
      }
      assert pieces[1..i+1] == pieces[1..];
    }

    /** One round of that loop. */
    method LinkNext(current_obj: nat, length: nat, slot: nat, ghost list: seq<Block>) returns (next_obj: nat)
      requires length >= 2 * NodeBytes && list != [] && Linked(nodes, list[0].addr, list, slot)
      requires Chained(nodes, list) && Below(list, current_obj + length)
      requires current_obj == list[|list| - 1].addr && Outside(list, Block(current_obj + length, length))
      requires forall k :: 0 <= k < |list| - 1 ==> list[k].addr != current_obj
      modifies this`nodes
      ensures next_obj == current_obj + length
      ensures Linked(nodes, list[0].addr, list + [Block(next_obj, length)], slot)
      ensures Chained(nodes, list + [Block(next_obj, length)])
      ensures ChangedIn(nodes, old(nodes), Block(current_obj, 2 * length))
    {
      next_obj := current_obj + length;
      nodes := nodes[current_obj := NodeAt(nodes, current_obj).(next := next_obj)];
      InitNode(next_obj, length, slot, current_obj);
      LinkedGrows(nodes, old(nodes), list, Block(next_obj, length), slot);
      ChainGrows(nodes, old(nodes), list, Block(next_obj, length));
    }

    /** Refill. A null result is 0. */
    method Refill(length: nat, sys: Option<nat>) returns (result: nat)
      requires Valid() && IsSlotLength(length) && FreshAnswer(pool, sys, 2 * (length * RefillCount))
      modifies this`startfree, this`endfree, this`nodes, this`pool, free_list
      ensures Valid()
      ensures var r := PoolSpec.Refill(old(pool), length, sys);
              pool == r.p && result == (if r.block.Some? then r.block.value.addr else 0)
    {
      hide Chained, AllApart, BlocksOk, UnusedOk, Pieces, ListsOk, InChunk, FindFreeListIndex, Index2SlotLength, PoolSpec.ChunkAlloc;
      ghost var p := pool;
      RefillKeeps(p, length, sys);
      ChunkAllocKeeps(p, length, RefillCount, sys);
      var chunk, number := ChunkAlloc(length, RefillCount, sys);
      if chunk == 0 {
        return 0;
      }
      ghost var r := pool;
      ghost var pieces := Pieces(chunk, length, number);
      if number == 1 {
        pool := pool.(blocks := pool.blocks + {pieces[0]});
        return chunk;
      }
      var refill_index := FindFreeListIndex(length);
      ghost var was := nodes;
      ghost var heads := free_list[..];
      LinkPieces(chunk, length, number, refill_index);
      forall i | 0 <= i < NumLists && i != refill_index ensures Linked(nodes, free_list[i], r.free[i], i) {
        HeldIsOutside(r, Block(chunk, length * number), i);
        LinkedKept(nodes, was, Block(chunk, length * number), heads[i], r.free[i], i);
      }
      pool := pool.(free := pool.free[refill_index := pieces[1..]], blocks := pool.blocks + SetOf(pieces));
      result := chunk;
    }

    /** The head of list i goes to the caller (lines 152-157). */
    method PopHead(i: nat) returns (result: nat)
      requires Valid() && i < NumLists && pool.free[i] != []
      modifies this`nodes, this`pool, free_list
      ensures Valid() && result == old(pool).free[i][0].addr
      ensures pool == old(pool).(free := old(pool).free[i := old(pool).free[i][1..]], out := old(pool).out + {old(pool).free[i][0]})
    {
      hide AllApart, BlocksOk, UnusedOk;
      PopKeeps(pool, i);
      result := free_list[i];
      LinkedTail(nodes, result, pool.free[i], i);
      free_list[i] := NodeAt(nodes, result).next;
      ghost var was := nodes;
      if free_list[i] != 0 {
        nodes := nodes[free_list[i] := NodeAt(nodes, free_list[i]).(prev := 0)];
      }
      ghost var b := pool.free[i][0];
      pool := pool.(free := pool.free[i := pool.free[i][1..]], out := pool.out + {b});
      forall j | 0 <= j < NumLists ensures Linked(nodes, free_list[j], pool.free[j], j) {
        LinkedKept(nodes, was, Block(0, 0), free_list[j], pool.free[j], j);
      }
    }

    /** RocketCoMalloc. A null result is 0. */
    method RocketCoMalloc(n: nat, sys: Option<nat>) returns (pointer: nat)
      requires Valid() && n > 0 && GoodAnswer(pool, n, sys)
      modifies this`startfree, this`endfree, this`nodes, this`pool, free_list
      ensures Valid()
      ensures var r := PoolSpec.Malloc(old(pool), n, sys);
              pool == r.p && pointer == (if r.block.Some? then r.block.value.addr else 0)
    {
      hide AllApart, BlocksOk, UnusedOk, PoolSpec.Refill, Linked, ListOk;
      MallocKeeps(pool, n, sys);
      ghost var r := PoolSpec.Malloc(pool, n, sys);
      if n > ThirdSlot {
        pool := r.p;
        return if sys.Some? then sys.value else 0;
      }
      AlignmentIsSlotLength(n);
      var CompleteData := DataAlignment(n);
      var DataIndex := FindFreeListIndex(CompleteData);
      EmptyList(DataIndex);
      if free_list[DataIndex] == 0 {
        pointer := Refill(CompleteData, sys);
        pool := r.p;
      } else {
        pointer := PopHead(DataIndex);
      }
    }

    /** A caller may write what it likes into a block it holds: no node of the lists is there. */
    method CallerWrites(b: Block, a: nat, n: FreeListNode)
      requires Valid() && b in pool.out && Inside(Block(a, NodeBytes), b)
      modifies this`nodes
      ensures Valid()
    {
      ghost var was := nodes;
      nodes := nodes[a := n];
      forall i | 0 <= i < NumLists ensures Linked(nodes, free_list[i], pool.free[i], i) {
        OutIsOutside(pool, b, i);
        LinkedKept(nodes, was, b, free_list[i], pool.free[i], i);
      }
    }
  }
}
