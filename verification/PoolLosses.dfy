/** Memory of the pool that ends in no list and with no caller: a block that ChunkAlloc files right
    before Refill overwrites the list it is in (RocketCoAlloctor.cpp:341, 385-407). */
module PoolLosses {
  import opened Options
  import opened Sequences
  import opened SizeClasses
  import opened PoolSpec
  import opened PoolInvariant

  ghost predicate InNoList(free: seq<seq<Block>>, b: Block) {
    forall list :: list in free ==> b !in list
  }

  lemma SlotBefore(i: nat, j: nat)
    requires i < NumLists && j < NumLists && Index2SlotLength(i) < Index2SlotLength(j)
    ensures i < j
  {
    if j < i {
      SlotLengthIncreases(j, i);
    }
  }

  /** If what is left is one block of the very length that is wanted, it goes to the list for that length. */
  lemma FiledWhole(p: Pool, length: nat)
    requires CanAlloc(p) && IsSlotLength(length) && Rest(p) == length
    ensures var i, b := FindFreeListIndex(length), Block(p.startfree, length);
            FileRest(p).free == p.free[i := [b] + p.free[i]] && FileRest(p).blocks == p.blocks + {b}
  {
    WholeLeftover(length);
    hide FirstLeftover, FindFreeListIndex, Index2SlotLength;
  }

  lemma WholeLeftover(length: nat)
    requires IsSlotLength(length) && length % 512 == 0
    ensures FirstLeftover(length) == length
  {
    SecondLeftover(length);
    LeftoverSlot(length);
  }

  /** What is left of less than that goes to lists of shorter blocks. */
  lemma FiledBelow(p: Pool, length: nat)
    requires CanAlloc(p) && IsSlotLength(length) && Rest(p) < length
    ensures var i, q := FindFreeListIndex(length), FileRest(p);
            && |q.free| == NumLists && (forall j :: i <= j < NumLists ==> q.free[j] == p.free[j])
            && (forall b :: b in q.blocks - p.blocks ==> exists j :: 0 <= j < i && b in q.free[j])
  {
    hide FirstLeftover, FindFreeListIndex, Index2SlotLength;
    var i, rest := FindFreeListIndex(length), Rest(p);
    if rest > 0 {
      var first := FirstLeftover(rest);
      var j, more := FindFreeListIndex(first), rest - first;
      LeftoverSlot(rest);
      SecondLeftover(rest);
      SlotBefore(j, i);
      var a, q := Block(p.startfree, first), FileRest(p);
      assert a in q.free[j];
      if more == 512 || more == 1024 {
        FirstSlots();
        SlotBefore(if more == 512 then 0 else 1, i);
        var c := Block(p.startfree + first, more);
        assert c in q.free[if more == 512 then 0 else 1];
        assert q.blocks == p.blocks + {a} + {c};
      } else {
        assert q.blocks == p.blocks + {a};
      }
    }
  }

  lemma FiledLists(p: Pool, length: nat)
    requires Inv(p) && IsSlotLength(length) && Rest(p) <= length
    ensures var i, q := FindFreeListIndex(length), FileRest(p);
            && |q.free| == NumLists
            && (forall j :: i < j < NumLists ==> q.free[j] == p.free[j])
            && (Rest(p) < length ==> q.free[i] == p.free[i])
            && (Rest(p) == length ==>
                  var b := Block(p.startfree, length);
                  q.free == p.free[i := [b] + p.free[i]] && q.blocks == p.blocks + {b})
            && (forall b :: b in q.blocks - p.blocks ==> exists j :: 0 <= j <= i && b in q.free[j])
  {
    hide Inv, FileRest, FindFreeListIndex, Index2SlotLength;
    CanAllocNow(p);
    if Rest(p) < length {
      FiledBelow(p, length);
    } else {
      FiledWhole(p, length);
      var i, b := FindFreeListIndex(length), Block(p.startfree, length);
      assert b in FileRest(p).free[i];
    }
  }

  /** What Refill makes of the lists once the rest is filed. */
  lemma RefillLists(p: Pool, length: nat, sys: Option<nat>)
    requires Inv(p) && IsSlotLength(length) && Rest(p) <= length
    ensures var i, free, c := FindFreeListIndex(length), FileRest(p).free, ChunkAlloc(p, length, RefillCount, sys);
            var r := Refill(p, length, sys).p;
            && |r.free| == NumLists && (forall j :: 0 <= j < i ==> r.free[j] == free[j])
            && r.free[i] == (if c.addr.Some? && c.number > 1 then Pieces(c.addr.value, length, c.number)[1..] else free[i])
            && (forall j, b :: i < j < NumLists && b in r.free[j] ==> b in free[j])
  {
    ChunkAllocIs(p, length, RefillCount, sys);
    hide Inv, ChunkAlloc, Pieces;
  }

  /** Refill has filed a block that was left over, and then no list has it and no caller. */
  ghost predicate Forgets(p: Pool, length: nat, sys: Option<nat>)
    requires Inv(p) && IsSlotLength(length)
  {
    var r := Refill(p, length, sys).p;
    Rest(p) <= length && exists b :: b in FileRest(p).blocks - p.blocks && b !in r.out && InNoList(r.free, b)
  }

  /** An empty list is refilled, and what was just filed is forgotten, exactly when what was left is one
      block of the very length that is wanted, and the new chunk, be it fresh or taken from a list of
      longer blocks, has more than one block in it. */
  lemma RefillForgetsIff(p: Pool, length: nat, sys: Option<nat>)
    requires Inv(p) && IsSlotLength(length) && FreshAnswer(p, sys, 2 * (length * RefillCount))
    requires p.free[FindFreeListIndex(length)] == []
    ensures var longer := FirstList(p.free, FindFreeListIndex(length) + 1);
            Forgets(p, length, sys) <==>
              Rest(p) == length && (sys.Some? || (longer.Some? && Index2SlotLength(longer.value) >= 2 * length))
  {
    if Rest(p) <= length {
      var c := ChunkAlloc(p, length, RefillCount, sys);
      ForgetsByNumber(p, length, sys);
      if Rest(p) == length {
        NumberIs(p, length, sys);
      }
    }
  }

  lemma {:induction false} SameFirstList(a: seq<seq<Block>>, b: seq<seq<Block>>, i: nat)
    requires |a| == |b| && i <= |a| && forall j :: i <= j < |a| ==> a[j] == b[j]
    ensures FirstList(a, i) == FirstList(b, i)
    decreases |a| - i
  {
    if i < |a| {
      SameFirstList(a, b, i + 1);
    }
  }

  lemma CountMany(rest: nat, length: nat, number: nat)
    requires 0 < length < rest && number > 1
    ensures Count(rest, length, number) > 1 <==> rest >= 2 * length
  {
    var n := Count(rest, length, number);
    hide Count;
    if n > 1 {
      assert length * n == 2 * length + length * (n - 2);
      if n > 2 {
        AtLeast(length, n - 2);
      }
    } else {
      assert length * (n + 1) == 2 * length;
    }
  }

  lemma NumberIs(p: Pool, length: nat, sys: Option<nat>)
    requires Inv(p) && IsSlotLength(length) && Rest(p) == length
    ensures var c := ChunkAlloc(p, length, RefillCount, sys);
            var longer := FirstList(p.free, FindFreeListIndex(length) + 1);
            c.addr.Some? && c.number > 1 <==>
              sys.Some? || (longer.Some? && Index2SlotLength(longer.value) >= 2 * length)
  {
    ChunkAllocIs(p, length, RefillCount, sys);
    FiledLists(p, length);
    SameFirstList(FileRest(p).free, p.free, FindFreeListIndex(length) + 1);
    FitsTwice(length, RefillCount);
    hide Inv, ChunkAlloc, Count, Index2SlotLength, FindFreeListIndex, FirstList;
    var q := Refreshed(p, length, RefillCount, sys);
    if q.Some? {
      CountMany(Rest(q.value), length, RefillCount);
    }
  }

  lemma ForgetsByNumber(p: Pool, length: nat, sys: Option<nat>)
    requires Inv(p) && IsSlotLength(length) && FreshAnswer(p, sys, 2 * (length * RefillCount))
    requires p.free[FindFreeListIndex(length)] == [] && Rest(p) <= length
    ensures var c := ChunkAlloc(p, length, RefillCount, sys);
            Forgets(p, length, sys) <==> Rest(p) == length && c.addr.Some? && c.number > 1
  {
    var i, c, r := FindFreeListIndex(length), ChunkAlloc(p, length, RefillCount, sys), Refill(p, length, sys).p;
    FiledLists(p, length);
    RefillLists(p, length, sys);
    if Rest(p) == length && c.addr.Some? && c.number > 1 {
      ForgottenBlock(p, length, sys);
    } else {
      forall b | b in FileRest(p).blocks - p.blocks ensures !InNoList(r.free, b) {
        var j :| 0 <= j <= i && b in FileRest(p).free[j];
        assert b in r.free[j] && r.free[j] in r.free;
      }
    }
  }

  lemma ForgottenBlock(p: Pool, length: nat, sys: Option<nat>)
    requires Inv(p) && IsSlotLength(length) && FreshAnswer(p, sys, 2 * (length * RefillCount))
    requires p.free[FindFreeListIndex(length)] == [] && Rest(p) == length
    requires var c := ChunkAlloc(p, length, RefillCount, sys); c.addr.Some? && c.number > 1
    ensures Forgets(p, length, sys)
    ensures var b, r := Block(p.startfree, length), Refill(p, length, sys).p;
            b in r.blocks && b !in r.out && InNoList(r.free, b)
  {
    hide ListsOk, AllApart, BlocksOk, InChunk;
    var i, b, c := FindFreeListIndex(length), Block(p.startfree, length), ChunkAlloc(p, length, RefillCount, sys);
    var r := Refill(p, length, sys).p;
    RestIsHeld(p, b);
    assert b !in p.blocks;
    NotListed(p.free, p.blocks, p.out, b);
    FiledLists(p, length);
    RefillLists(p, length, sys);
    ChunkAllocKeeps(p, length, RefillCount, sys);
    assert b in c.p.blocks by { StaysCut(p, length, sys); }
    forall k | 0 <= k < c.number ensures Pieces(c.addr.value, length, c.number)[k] != b {
      PieceInside(c.addr.value, length, c.number, k);
    }
    forall list | list in r.free ensures b !in list {
      var j :| 0 <= j < NumLists && r.free[j] == list;
    }
  }

  /** The block filed last is not the one reused. */
  lemma StaysCut(p: Pool, length: nat, sys: Option<nat>)
    requires Inv(p) && IsSlotLength(length) && Rest(p) == length
    requires ChunkAlloc(p, length, RefillCount, sys).addr.Some?
    ensures Block(p.startfree, length) in ChunkAlloc(p, length, RefillCount, sys).p.blocks
  {
    var b, i := Block(p.startfree, length), FindFreeListIndex(length);
    ChunkAllocIs(p, length, RefillCount, sys);
    FiledLists(p, length);
    FileRestKeeps(p);
    hide ChunkAlloc;
    if sys.None? {
      var j := FirstList(FileRest(p).free, i + 1).value;
      var q := FileRest(p);
      assert b in q.free[i];
      assert NoCommon(q.free[i], q.free[j]);
      assert q.free[j][0] in q.free[j];
    }
  }

  /** Three requests after which 2048 bytes are in no list and with no caller. */
  function ForgettingRun(): seq<Request> {
    [Request(512, Some(4096)), Request(8192, None), Request(2048, Some(65536))]
  }

  lemma FirstRequest(p: Pool)
    requires CanAlloc(p) && p.startfree == 0 && p.endfree == 0 && p.chunks == {}
    requires p.free[0] == [] && p.free[3] == [] && p.free[15] == []
    ensures GoodAnswer(p, 512, Some(4096))
    ensures var r := Malloc(p, 512, Some(4096)).p;
            r.startfree == 14336 && r.endfree == 24576 && r.chunks == {Block(4096, 20480)}
            && |r.free| == NumLists && r.free[15] == [] && r.free[3] == []
  {
    hide Inv, ChunkAlloc, Pieces;
    assert DataAlignment(512) == 512 && FindFreeListIndex(512) == 0;
    ChunkAllocIs(p, 512, RefillCount, Some(4096));
  }

  lemma SecondRequest(p: Pool)
    requires CanAlloc(p) && p.startfree == 14336 && p.endfree == 24576 && p.free[15] == [] && p.free[3] == []
    ensures GoodAnswer(p, 8192, None)
    ensures var r := Malloc(p, 8192, None).p;
            r.startfree == 22528 && r.endfree == 24576 && r.chunks == p.chunks && r.free == p.free
  {
    hide ChunkAlloc;
    assert DataAlignment(8192) == 8192 && FindFreeListIndex(8192) == 15;
    ChunkAllocIs(p, 8192, RefillCount, None);
    assert Count(10240, 8192, RefillCount) == 1;
  }

  lemma ThirdRequest(p: Pool)
    requires Inv(p) && p.startfree == 22528 && p.endfree == 24576 && p.free[3] == [] && p.chunks == {Block(4096, 20480)}
    ensures GoodAnswer(p, 2048, Some(65536)) && IsSlotLength(2048) && Forgets(p, 2048, Some(65536))
    ensures var r := Malloc(p, 2048, Some(65536)).p;
            Block(22528, 2048) in r.blocks && Block(22528, 2048) !in r.out && InNoList(r.free, Block(22528, 2048))
  {
    assert DataAlignment(2048) == 2048 && FindFreeListIndex(2048) == 3;
    NumberIs(p, 2048, Some(65536));
    ForgottenBlock(p, 2048, Some(65536));
    RefillKeeps(p, 2048, Some(65536));
    hide Inv, Refill, ChunkAlloc;
    assert Block(22528, 2048) != Refill(p, 2048, Some(65536)).block.value;
  }

  lemma RunOfThree(p0: Pool, a: Request, b: Request, c: Request)
    requires Inv(p0) && a.n > 0 && b.n > 0 && c.n > 0 && GoodAnswer(p0, a.n, a.sys)
    requires var p1 := Malloc(p0, a.n, a.sys).p;
             && CanAlloc(p1) && GoodAnswer(p1, b.n, b.sys)
             && var p2 := Malloc(p1, b.n, b.sys).p;
                CanAlloc(p2) && GoodAnswer(p2, c.n, c.sys)
    ensures Possible(p0, [a, b, c])
    ensures After(p0, [a, b, c]) == Malloc(Malloc(Malloc(p0, a.n, a.sys).p, b.n, b.sys).p, c.n, c.sys).p
  {
    CanAllocNow(p0);
    hide GoodAnswer, Malloc, Inv, Possible, After;
    MallocKeeps(p0, a.n, a.sys);
    var p1 := Malloc(p0, a.n, a.sys).p;
    MallocKeeps(p1, b.n, b.sys);
    var p2 := Malloc(p1, b.n, b.sys).p;
    MallocKeeps(p2, c.n, c.sys);
    var p3 := Malloc(p2, c.n, c.sys).p;
    NothingMore(p3);
    OneFirst(p2, c, []);
    OneFirst(p1, b, [c]);
    OneFirst(p0, a, [b, c]);
    assert [c] + [] == [c] && [b] + [c] == [b, c] && [a] + [b, c] == [a, b, c];
  }

  lemma NothingMore(p: Pool)
    requires Inv(p)
    ensures Possible(p, []) && After(p, []) == p
  {
    hide Inv;
  }

  lemma OneFirst(p: Pool, a: Request, requests: seq<Request>)
    requires Inv(p) && a.n > 0 && CanAlloc(p) && GoodAnswer(p, a.n, a.sys)
    requires Inv(Malloc(p, a.n, a.sys).p) && Possible(Malloc(p, a.n, a.sys).p, requests)
    ensures Possible(p, [a] + requests)
    ensures After(p, [a] + requests) == After(Malloc(p, a.n, a.sys).p, requests)
  {
    hide GoodAnswer, Malloc, Inv;
    assert ([a] + requests)[1..] == requests;
  }

  ghost predicate IsNew(p: Pool) {
    && Inv(p) && p.startfree == 0 && p.endfree == 0 && p.chunks == {}
    && p.free[0] == [] && p.free[3] == [] && p.free[15] == []
  }

  lemma NewPoolIsNew()
    ensures IsNew(NewPool())
  {
    hide Inv;
  }

  ghost predicate Forgotten(p: Pool, b: Block) {
    b in p.blocks && b !in p.out && InNoList(p.free, b)
  }

  lemma NewForgets(p0: Pool)
    requires IsNew(p0)
    ensures Possible(p0, ForgettingRun()) && Forgotten(After(p0, ForgettingRun()), Block(22528, 2048))
  {
    var a, b, c := ForgettingRun()[0], ForgettingRun()[1], ForgettingRun()[2];
    assert ForgettingRun() == [a, b, c];
    CanAllocNow(p0);
    hide Inv, Malloc, GoodAnswer, Possible, After, Forgets, ForgettingRun;
    FirstRequest(p0);
    MallocKeeps(p0, 512, Some(4096));
    var p1 := Malloc(p0, 512, Some(4096)).p;
    CanAllocNow(p1);
    SecondRequest(p1);
    MallocKeeps(p1, 8192, None);
    var p2 := Malloc(p1, 8192, None).p;
    CanAllocNow(p2);
    ThirdRequest(p2);
    RunOfThree(p0, a, b, c);
  }

  /** From a new pool, the third request of the run forgets 2048 bytes that it has just filed. */
  lemma ARunForgets()
    ensures Possible(NewPool(), ForgettingRun())
    ensures Forgotten(After(NewPool(), ForgettingRun()), Block(22528, 2048))
  {
    NewPoolIsNew();
    hide IsNew, NewPool, Possible, After, ForgettingRun, Forgotten;
    NewForgets(NewPool());
  }
}
