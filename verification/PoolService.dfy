/** From where a request is served, and what becomes of everything else the pool holds
    (RocketCoAlloctor.cpp:133-165, 317-434). */
module PoolService {
  import opened Options
  import opened Sequences
  import opened SizeClasses
  import opened PoolSpec
  import opened PoolInvariant
  import opened PoolLosses

  /** The list for a request the pool serves itself. */
  function ListFor(n: nat): (i: nat)
    requires 0 < n <= 131072
    ensures i < 88 && IsSlotLength(DataAlignment(n)) && i == FindFreeListIndex(DataAlignment(n))
  {
    AlignmentIsSlotLength(n);
    FindFreeListIndex(DataAlignment(n))
  }

  // ---------- a list that is not empty, and requests the pool does not serve ----------

  /** If the list for the request has a block, the head of it is the answer, and all else stays. */
  lemma ServedFromList(p: Pool, n: nat, sys: Option<nat>)
    requires Inv(p) && 0 < n <= 131072 && p.free[ListFor(n)] != []
    ensures var i, r := ListFor(n), Malloc(p, n, sys);
            var b := p.free[i][0];
            && r.block == Some(b) && r.p.free == p.free[i := p.free[i][1..]] && r.p.out == p.out + {b}
            && r.p.startfree == p.startfree && r.p.endfree == p.endfree && r.p.chunks == p.chunks && r.p.blocks == p.blocks
  {
    hide Inv, Refill;
    CanAllocNow(p);
  }

  /** A request above 128 KiB is for the system. */
  lemma ServedBySystem(p: Pool, n: nat, sys: Option<nat>)
    requires Inv(p) && n > 131072
    ensures var r := Malloc(p, n, sys);
            && r.block == (if sys.Some? then Some(Block(sys.value, n)) else None)
            && r.p.free == p.free && r.p.startfree == p.startfree && r.p.endfree == p.endfree
            && r.p.out == (if sys.Some? then p.out + {Block(sys.value, n)} else p.out)
  {
    hide Inv, Refill;
    CanAllocNow(p);
  }

  // ---------- an empty list ----------

  /** The first block of the range [addr, end) is the answer; it and the blocks behind it, 20 in all or as
      many as fit, are cut out of the range, and the rest of the range is left unused. */
  ghost predicate CutFrom(r: Result, addr: nat, end: nat, length: nat, i: nat) {
    r.block == Some(Block(addr, length)) && r.p.endfree == end && exists k: nat :: CutInto(r.p, addr, end, length, i, k)
  }

  ghost predicate CutInto(p: Pool, addr: nat, end: nat, length: nat, i: nat, k: nat) {
    && 1 <= k <= 20 && p.startfree == addr + length * k <= end && (k == 20 || end < addr + length * (k + 1))
    && i < |p.free| && (k > 1 ==> p.free[i] == Pieces(addr, length, k)[1..])
  }

  /** The first list with longer blocks that has one. */
  function Longer(p: Pool, i: nat): Option<nat>
    requires i < |p.free|
  {
    FirstList(p.free, i + 1)
  }

  /** What Malloc makes of a chunk. */
  ghost predicate IsFilled(r: Result, c: Chunk, length: nat, i: nat) {
    && |r.p.free| == |c.p.free| && i < |r.p.free|
    && r.p.startfree == c.p.startfree && r.p.endfree == c.p.endfree && r.p.chunks == c.p.chunks
    && r.block == (if c.addr.Some? then Some(Block(c.addr.value, length)) else None)
    && (c.addr.Some? && c.number > 1 ==> r.p.free[i] == Pieces(c.addr.value, length, c.number)[1..])
    && (forall j :: 0 <= j < |r.p.free| && (j != i || c.addr.None? || c.number == 1) ==> r.p.free[j] == c.p.free[j])
  }

  lemma MallocFills(p: Pool, n: nat, sys: Option<nat>)
    requires Inv(p) && 0 < n <= 131072 && p.free[ListFor(n)] == []
    ensures CanAlloc(p)
    ensures IsFilled(Malloc(p, n, sys), ChunkAlloc(p, DataAlignment(n), 20, sys), DataAlignment(n), ListFor(n))
  {
    CanAllocNow(p);
    ChunkAllocIs(p, DataAlignment(n), 20, sys);
    ChunkLists(p, DataAlignment(n), sys);
    hide Inv, ChunkAlloc, Cut, DataAlignment, FindFreeListIndex, Refreshed;
  }

  lemma ChunkLists(p: Pool, length: nat, sys: Option<nat>)
    requires CanAlloc(p) && IsSlotLength(length)
    ensures |ChunkAlloc(p, length, 20, sys).p.free| == NumLists && ChunkAlloc(p, length, 20, sys).number >= 1
  {
    ChunkAllocIs(p, length, 20, sys);
    hide ChunkAlloc, Count, FirstLeftover, FindFreeListIndex, Index2SlotLength;
  }

  lemma FilledIsCut(q: Pool, length: nat, r: Result, i: nat)
    requires 0 < length < Rest(q) && IsFilled(r, Cut(q, length, 20), length, i)
    ensures CutFrom(r, q.startfree, q.endfree, length, i) && r.p.chunks == q.chunks
  {
    var k := Count(Rest(q), length, 20);
    hide Count, Pieces;
    assert CutInto(r.p, q.startfree, q.endfree, length, i, k);
  }

  /** If the list is empty, the request is cut out of the unused range while that has more than one block;
      then out of twice 20 blocks from the system; then out of the head of the first list with longer
      blocks. If there is none of them it fails. */
  lemma ServedFromRange(p: Pool, n: nat, sys: Option<nat>)
    requires Inv(p) && 0 < n <= 131072 && p.free[ListFor(n)] == []
    ensures var i, length, r := ListFor(n), DataAlignment(n), Malloc(p, n, sys);
            if Rest(p) > length then
              CutFrom(r, p.startfree, p.endfree, length, i) && r.p.chunks == p.chunks
            else if sys.Some? then
              && CutFrom(r, sys.value, sys.value + 40 * length, length, i)
              && r.p.chunks == p.chunks + {Block(sys.value, 40 * length)}
            else match Longer(p, i) {
              case Some(j) =>
                var b := p.free[j][0];
                CutFrom(r, b.addr, b.addr + Index2SlotLength(j), length, i) && r.p.chunks == p.chunks
              case None => r.block == None && r.p.startfree == r.p.endfree && r.p.chunks == p.chunks }
  {
    var i, length, r := ListFor(n), DataAlignment(n), Malloc(p, n, sys);
    MallocFills(p, n, sys);
    ChunkAllocIs(p, length, 20, sys);
    hide Malloc, ChunkAlloc, CutFrom, IsFilled, Cut, DataAlignment, FindFreeListIndex, Index2SlotLength, Inv;
    if Rest(p) > length {
      FilledIsCut(p, length, r, i);
    } else {
      SecondTry(p, length, sys);
      var q := Refreshed(p, length, 20, sys);
      hide Refreshed;
      if q.Some? {
        FilledIsCut(q.value, length, r, i);
      } else {
        NotFilled(FileRest(p), length, r, i);
      }
    }
  }

  lemma NotFilled(q: Pool, length: nat, r: Result, i: nat)
    requires IsFilled(r, Chunk(q, None, 20), length, i)
    ensures r.block == None && r.p.startfree == q.startfree && r.p.endfree == q.endfree && r.p.chunks == q.chunks
  {
  }

  lemma SecondTry(p: Pool, length: nat, sys: Option<nat>)
    requires Inv(p) && IsSlotLength(length) && Rest(p) <= length
    ensures FileRest(p).startfree == FileRest(p).endfree && FileRest(p).chunks == p.chunks
    ensures var i, q := FindFreeListIndex(length), Refreshed(p, length, 20, sys);
            match sys {
              case Some(a) =>
                && q.Some? && q.value.startfree == a && q.value.endfree == a + 40 * length
                && q.value.chunks == p.chunks + {Block(a, 40 * length)}
              case None =>
                match Longer(p, i) {
                  case Some(j) =>
                    && q.Some? && q.value.startfree == p.free[j][0].addr && q.value.chunks == p.chunks
                    && q.value.endfree == p.free[j][0].addr + Index2SlotLength(j)
                  case None => q.None? } }
  {
    RestFiled(p);
    CanAllocNow(p);
    if sys.None? {
      FromLonger(p, length);
    }
    hide Inv, FileRest, FirstList, FindFreeListIndex, Index2SlotLength;
  }

  lemma FromLonger(p: Pool, length: nat)
    requires Inv(p) && IsSlotLength(length) && Rest(p) <= length && CanAlloc(p)
    ensures var q := Refreshed(p, length, 20, None);
            match Longer(p, FindFreeListIndex(length)) {
              case Some(j) =>
                && q.Some? && q.value.startfree == p.free[j][0].addr && q.value.chunks == p.chunks
                && q.value.endfree == p.free[j][0].addr + Index2SlotLength(j)
              case None => q.None? }
  {
    FiledLists(p, length);
    SameFirstList(FileRest(p).free, p.free, FindFreeListIndex(length) + 1);
    RestFiled(p);
    hide Inv, FileRest, FirstList, FindFreeListIndex, Index2SlotLength;
  }

  lemma RestFiled(p: Pool)
    requires CanAlloc(p) && Rest(p) <= ThirdSlot
    ensures var q := FileRest(p); q.startfree == 0 && q.endfree == 0 && q.chunks == p.chunks && q.out == p.out
  {
    hide FirstLeftover, FindFreeListIndex, Index2SlotLength;
  }

  // ---------- what becomes of the other blocks ----------

  /** list has was at its end, and before that only blocks of the range r. */
  ghost predicate Extends(list: seq<Block>, was: seq<Block>, r: Block) {
    && |was| <= |list| && list[|list| - |was|..] == was
    && forall k :: 0 <= k < |list| - |was| ==> Inside(list[k], r)
  }

  lemma Pushed(list: seq<Block>, was: seq<Block>, r: Block, b: Block)
    requires Extends(list, was, r) && Inside(b, r)
    ensures Extends([b] + list, was, r)
  {
    assert ([b] + list)[|list| + 1 - |was|..] == list[|list| - |was|..];
  }

  /** Filing the unused rest puts parts of it before what the lists hold. */
  lemma FiledExtends(p: Pool, j: nat)
    requires CanAlloc(p) && Rest(p) <= ThirdSlot && j < NumLists
    ensures |FileRest(p).free| == NumLists && Extends(FileRest(p).free[j], p.free[j], Unused(p))
  {
    hide FirstLeftover, FindFreeListIndex, Index2SlotLength, Extends;
    var u := Unused(p);
    assert Extends(p.free[j], p.free[j], u) by { NothingPushed(p.free[j], u); }
    if Rest(p) > 0 {
      var first := FirstLeftover(Rest(p));
      LeftoverSlot(Rest(p));
      SecondLeftover(Rest(p));
      var more := Rest(p) - first;
      Pushed(p.free[j], p.free[j], u, Block(p.startfree, first));
      if more == 512 || more == 1024 {
        var b := Block(p.startfree + first, more);
        Pushed(p.free[j], p.free[j], u, b);
        Pushed([Block(p.startfree, first)] + p.free[j], p.free[j], u, b);
      }
    }
  }

  lemma NothingPushed(list: seq<Block>, r: Block)
    ensures Extends(list, list, r)
  {
  }

  /** The list from which the head is taken for the new range, if one is. */
  function ReusedList(p: Pool, n: nat, sys: Option<nat>): Option<nat>
    requires Inv(p) && 0 < n <= 131072
  {
    if Rest(p) <= DataAlignment(n) && sys.None? then Longer(p, ListFor(n)) else None
  }

  /** Serving a request whose list is empty keeps every other list, but for the one head that is reused,
      and puts at most parts of the unused range before it. */
  lemma OtherListsStay(p: Pool, n: nat, sys: Option<nat>, j: nat)
    requires Inv(p) && 0 < n <= 131072 && p.free[ListFor(n)] == [] && j < NumLists && j != ListFor(n)
    ensures var r, reused := Malloc(p, n, sys).p, ReusedList(p, n, sys);
            && |r.free| == NumLists
            && (Rest(p) > DataAlignment(n) ==> r.free[j] == p.free[j])
            && (reused == Some(j) ==> r.free[j] == p.free[j][1..])
            && (reused != Some(j) ==> Extends(r.free[j], p.free[j], Unused(p)))
  {
    var i, length := ListFor(n), DataAlignment(n);
    MallocFills(p, n, sys);
    ChunkFree(p, length, sys);
    NothingPushed(p.free[j], Unused(p));
    if Rest(p) <= length {
      FiledLists(p, length);
      FiledExtends(p, j);
    }
    hide Malloc, ChunkAlloc, DataAlignment, FindFreeListIndex, Index2SlotLength, Inv, Extends, FileRest, Pieces, FirstList;
  }

  lemma ChunkFree(p: Pool, length: nat, sys: Option<nat>)
    requires Inv(p) && IsSlotLength(length)
    ensures CanAlloc(p)
    ensures Rest(p) > length ==> ChunkAlloc(p, length, 20, sys).p.free == p.free
    ensures Rest(p) <= length ==>
              var free := FileRest(p).free;
              && |free| == NumLists
              && ChunkAlloc(p, length, 20, sys).p.free ==
                   match (if sys.None? then Longer(p, FindFreeListIndex(length)) else None) {
                     case Some(k) => free[k := if free[k] == [] then [] else free[k][1..]]
                     case None => free }
  {
    CanAllocNow(p);
    ChunkAllocIs(p, length, 20, sys);
    if Rest(p) <= length {
      FiledLists(p, length);
      SameFirstList(FileRest(p).free, p.free, FindFreeListIndex(length) + 1);
    }
    hide Inv, ChunkAlloc, FileRest, Count, FirstList, FindFreeListIndex, Index2SlotLength;
  }

  ghost predicate Listed(p: Pool, b: Block) {
    exists j :: 0 <= j < |p.free| && b in p.free[j]
  }

  /** So no block that was listed is lost: it is still listed, it is the answer, or it is the longer
      block that is the new range. */
  lemma NoListedBlockIsLost(p: Pool, n: nat, sys: Option<nat>, b: Block)
    requires Inv(p) && n > 0 && Listed(p, b)
    ensures var r := Malloc(p, n, sys);
            || Listed(r.p, b) || r.block == Some(b)
            || (n <= 131072 && p.free[ListFor(n)] == [] && ReusedList(p, n, sys).Some?
                && b == p.free[ReusedList(p, n, sys).value][0])
  {
    var j :| 0 <= j < |p.free| && b in p.free[j];
    ListCount(p);
    if n > 131072 {
      ServedBySystem(p, n, sys);
      hide Malloc, Inv;
      assert b in Malloc(p, n, sys).p.free[j];
    } else if p.free[ListFor(n)] != [] {
      ServedFromList(p, n, sys);
      hide Malloc, Inv;
      assert p.free[j] == [p.free[j][0]] + p.free[j][1..];
      assert b == p.free[ListFor(n)][0] || b in Malloc(p, n, sys).p.free[j];
    } else {
      OtherListsStay(p, n, sys, j);
      hide Malloc, Inv, DataAlignment, ListFor, ReusedList;
      var list := Malloc(p, n, sys).p.free[j];
      StaysIn(list, p.free[j], Unused(p), ReusedList(p, n, sys) == Some(j), b);
    }
  }

  lemma StaysIn(list: seq<Block>, was: seq<Block>, r: Block, reused: bool, b: Block)
    requires b in was && if reused then list == was[1..] else Extends(list, was, r)
    ensures b in list || (reused && b == was[0])
  {
    assert was == [was[0]] + was[1..];
    if !reused {
      assert list == list[..|list| - |was|] + was;
    }
  }

  lemma ListCount(p: Pool)
    requires Inv(p)
    ensures |p.free| == 96
  {
  }

  // ---------- the unused rest ----------

  /** The byte at a lies in a block that q lists and p does not. */
  ghost predicate NewlyListed(q: Pool, p: Pool, a: nat)
    requires |q.free| == |p.free|
  {
    exists j, b :: FiledIn(q, p, j, b) && b.addr <= a < b.addr + b.len
  }

  ghost predicate FiledIn(q: Pool, p: Pool, j: nat, b: Block)
    requires |q.free| == |p.free|
  {
    j < |q.free| && |p.free[j]| <= |q.free[j]| && b in q.free[j][..|q.free[j]| - |p.free[j]|]
  }

  /** FileRest as far as the lists go. */
  lemma FiledAre(p: Pool)
    requires CanAlloc(p) && 0 < Rest(p) <= 131072
    ensures var first := FirstLeftover(Rest(p));
            var i, more := FindFreeListIndex(first), Rest(p) - first;
            && i < NumLists
            && var f := p.free[i := [Block(p.startfree, first)] + p.free[i]];
               var c := Block(p.startfree + first, more);
               FileRest(p).free ==
                 if more == 512 then f[0 := [c] + f[0]] else if more == 1024 then f[1 := [c] + f[1]] else f
  {
    LeftoverSlot(Rest(p));
    hide FirstLeftover, FindFreeListIndex, Index2SlotLength;
  }

  /** How long the first part is, and which second part is not filed. */
  lemma Parts(rest: nat)
    requires 0 < rest <= 131072 && rest % 512 == 0
    ensures var more := rest - FirstLeftover(rest);
            more in {0, 512, 1024, 1536} && (more == 1536 <==> rest > 32768 && rest % 2048 == 512)
  {
    Rounded(rest);
    hide DataAlignment;
  }

  lemma FirstOfList(q: Pool, p: Pool, j: nat, b: Block)
    requires |q.free| == |p.free| && j < |p.free| && |p.free[j]| < |q.free[j]|
    requires b == q.free[j][0] || (|p.free[j]| + 1 < |q.free[j]| && b == q.free[j][1])
    ensures FiledIn(q, p, j, b)
  {
  }

  lemma OnlyOne(q: Pool, p: Pool, i: nat, b: Block, j: nat, c: Block)
    requires i < |p.free| && q.free == p.free[i := [b] + p.free[i]] && FiledIn(q, p, j, c)
    ensures c == b
  {
  }

  /** Of the unused rest every byte is filed, unless the rest is above 32 KiB and 512 bytes more than a
      multiple of 2048: then its last 1536 bytes are forgotten. */
  lemma RestIsFiledIff(p: Pool, a: nat)
    requires CanAlloc(p) && Rest(p) <= 131072 && p.startfree <= a < p.endfree
    ensures |FileRest(p).free| == |p.free|
    ensures NewlyListed(FileRest(p), p, a) <==> !(Rest(p) > 32768 && Rest(p) % 2048 == 512 && a >= p.endfree - 1536)
  {
    FiledAre(p);
    Parts(Rest(p));
    hide FileRest, FirstLeftover, FindFreeListIndex, FiledIn;
    var q, first := FileRest(p), FirstLeftover(Rest(p));
    var i, more := FindFreeListIndex(first), Rest(p) - first;
    var b, c := Block(p.startfree, first), Block(p.startfree + first, more);
    if a < p.startfree + first {
      FirstOfList(q, p, i, b);
    } else if more == 512 || more == 1024 {
      FirstOfList(q, p, if more == 512 then 0 else 1, c);
    } else {
      forall j: nat, d | FiledIn(q, p, j, d) ensures d == b {
        OnlyOne(q, p, i, b, j, d);
      }
    }
  }
}
