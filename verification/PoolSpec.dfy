/** The allocation side of the pool (RocketCoAlloctor.cpp:133-165, 317-450) on values: which blocks the
    lists hold, which were handed out, and what is still unused. */
module PoolSpec {
  import opened Options
  import opened Sequences
  import opened SizeClasses

  /** The bytes [addr, addr + len). */
  datatype Block = Block(addr: nat, len: nat)

  predicate Apart(a: Block, b: Block) {
    a.addr + a.len <= b.addr || b.addr + b.len <= a.addr
  }

  predicate Inside(a: Block, b: Block) {
    b.addr <= a.addr && a.addr + a.len <= b.addr + b.len
  }

  datatype Pool = Pool(
    free: seq<seq<Block>>,   // by list index, head first
    startfree: nat,
    endfree: nat,
    chunks: set<Block>,      // what the system gave
    blocks: set<Block>,      // what has been cut out of it
    out: set<Block>)         // and handed to a caller

  const RefillCount: nat := 20

  function Rest(p: Pool): int {
    p.endfree - p.startfree
  }

  function Unused(p: Pool): Block
    requires p.startfree <= p.endfree
  {
    Block(p.startfree, p.endfree - p.startfree)
  }

  // ---------- the code ----------

  function Push(p: Pool, i: nat, b: Block): Pool
    requires i < |p.free|
  {
    p.(free := p.free[i := [b] + p.free[i]], blocks := p.blocks + {b})
  }

  /** Lines 385-412: what is left of the unused range is filed; nothing stays unused. */
  function FileRest(p: Pool): Pool
    requires |p.free| == NumLists && 0 <= Rest(p) <= ThirdSlot && Rest(p) % 512 == 0
  {
    var q :=
      (if Rest(p) == 0 then p
      else
        var first := FirstLeftover(Rest(p));
        LeftoverSlot(Rest(p));
        var p1 := Push(p, FindFreeListIndex(first), Block(p.startfree, first));
        var more := Rest(p) - first;
        if more == 512 then Push(p1, 0, Block(p.startfree + first, 512))
        else if more == 1024 then Push(p1, 1, Block(p.startfree + first, 1024))
        else p1);
    q.(startfree := 0, endfree := 0)
  }

  function Take(p: Pool, bytes: nat): Pool
    requires bytes <= Rest(p)
  {
    p.(startfree := p.startfree + bytes)
  }

  function AddChunk(p: Pool, c: Block): Pool {
    p.(startfree := c.addr, endfree := c.addr + c.len, chunks := p.chunks + {c})
  }

  /** The first list from i on that is not empty. */
  function FirstList(free: seq<seq<Block>>, i: nat): (r: Option<nat>)
    requires i <= |free|
    ensures r.Some? ==> i <= r.value < |free| && free[r.value] != [] && forall k :: i <= k < r.value ==> free[k] == []
    ensures r.None? ==> forall k :: i <= k < |free| ==> free[k] == []
    decreases |free| - i
  {
    if i == |free| then None else if free[i] != [] then Some(i) else FirstList(free, i + 1)
  }

  /** The head of list i becomes the unused range, as long as the slots of the list. */
  function Reuse(p: Pool, i: nat): Pool
    requires i < |p.free| == NumLists && p.free[i] != []
  {
    var b := p.free[i][0];
    p.(free := p.free[i := p.free[i][1..]], blocks := p.blocks - {b},
       startfree := b.addr, endfree := b.addr + Index2SlotLength(i))
  }

  /** A length ChunkAlloc is called with. */
  predicate IsSlotLength(length: nat) {
    0 < length <= ThirdSlot && FindFreeListIndex(length) < 88 && Index2SlotLength(FindFreeListIndex(length)) == length
  }

  predicate CanAlloc(p: Pool) {
    |p.free| == NumLists && 0 <= Rest(p) && Rest(p) % 512 == 0
  }

  datatype Chunk = Chunk(p: Pool, addr: Option<nat>, number: nat)

  /** ChunkAlloc; sys is what malloc would answer, None for no memory. */
  function ChunkAlloc(p: Pool, length: nat, number: nat, sys: Option<nat>): (r: Chunk)
    requires CanAlloc(p) && IsSlotLength(length) && number > 0
    decreases if Rest(p) > length then 0 else 1
  {
    var total := length * number;
    if Rest(p) > total then
      Chunk(Take(p, total), Some(p.startfree), number)
    else if Rest(p) > length then
      var n := Rest(p) / length;
      FitsIn(Rest(p), length);
      Chunk(Take(p, length * n), Some(p.startfree), n)
    else
      FitsTwice(length, number);
      var q := FileRest(p);
      match sys
      case Some(a) =>
        ChunkAlloc(AddChunk(q, Block(a, 2 * total)), length, number, sys)
      case None =>
        var i := FirstList(q.free, FindFreeListIndex(length) + 1);
        if i.None? then Chunk(q, None, number)
        else
          SlotLengthIncreases(FindFreeListIndex(length), i.value);
          ChunkAlloc(Reuse(q, i.value), length, number, sys)
  }

  /** How many blocks of the wanted length an unused range gives. */
  function Count(rest: nat, length: nat, number: nat): (n: nat)
    requires 0 < length < rest && number > 0
    ensures 1 <= n <= number && length * n <= rest
    ensures n == number || rest < length * (n + 1)
  {
    if rest > length * number then number
    else
      FitsIn(rest, length);
      AtMost(rest, length, number);
      rest / length
  }

  lemma AtMost(rest: nat, length: nat, number: nat)
    requires 0 < length && rest <= length * number
    ensures rest / length <= number && rest < length * (rest / length + 1)
  {
    var n := rest / length;
    assert rest == length * n + rest % length;
    if n > number {
      More(length, n, number);
    }
  }

  lemma More(a: nat, b: nat, c: nat)
    requires a > 0 && b > c
    ensures a * b > a * c
  {
    assert a * b == a * c + a * (b - c);
    AtLeast(a, b - c);
  }

  /** ChunkAlloc when the unused range has more than one block in it. */
  function Cut(p: Pool, length: nat, number: nat): Chunk
    requires 0 < length < Rest(p) && number > 0
  {
    var n := Count(Rest(p), length, number);
    Chunk(Take(p, length * n), Some(p.startfree), n)
  }

  /** The unused range of the second try. */
  function Refreshed(p: Pool, length: nat, number: nat, sys: Option<nat>): Option<Pool>
    requires CanAlloc(p) && IsSlotLength(length) && Rest(p) <= length
  {
    var q := FileRest(p);
    match sys
    case Some(a) => Some(AddChunk(q, Block(a, 2 * (length * number))))
    case None =>
      var i := FirstList(q.free, FindFreeListIndex(length) + 1);
      if i.None? then None else Some(Reuse(q, i.value))
  }

  /** ChunkAlloc tries again at most once: then the unused range, be it a fresh chunk or the head of a
      list of longer blocks, has more than one block in it. */
  lemma {:induction false} ChunkAllocIs(p: Pool, length: nat, number: nat, sys: Option<nat>)
    requires CanAlloc(p) && IsSlotLength(length) && number > 0
    ensures Rest(p) > length ==> ChunkAlloc(p, length, number, sys) == Cut(p, length, number)
    ensures Rest(p) <= length ==>
      var q := Refreshed(p, length, number, sys);
      && (q.None? ==> ChunkAlloc(p, length, number, sys) == Chunk(FileRest(p), None, number))
      && (q.Some? ==>
            && CanAlloc(q.value) && Rest(q.value) > length
            && ChunkAlloc(p, length, number, sys) == Cut(q.value, length, number))
  {
    if Rest(p) > length {
      CutIs(p, length, number, sys);
    } else {
      FitsTwice(length, number);
      var q := Refreshed(p, length, number, sys);
      if q.Some? {
        if sys.None? {
          SlotLengthIncreases(FindFreeListIndex(length), FirstList(FileRest(p).free, FindFreeListIndex(length) + 1).value);
        }
        CutIs(q.value, length, number, sys);
      }
    }
  }

  lemma {:induction false} CutIs(p: Pool, length: nat, number: nat, sys: Option<nat>)
    requires CanAlloc(p) && IsSlotLength(length) && number > 0 && Rest(p) > length > 0
    ensures ChunkAlloc(p, length, number, sys) == Cut(p, length, number)
  {
  }

  lemma FitsIn(rest: nat, length: nat)
    requires 0 < length <= rest
    ensures 1 <= rest / length && length * (rest / length) <= rest
  {
  }

  lemma FitsTwice(length: nat, number: nat)
    requires IsSlotLength(length) && number > 0
    ensures 2 * (length * number) > length * number >= length && (2 * (length * number)) % 512 == 0
  {
    var k, total := length / 512, length * number;
    assert length == 512 * k && length > 0;
    Scaled(512, k, number);
    assert total == 512 * (k * number);
    assert total >= length by { AtLeast(length, number); }
  }

  lemma Scaled(a: nat, b: nat, c: nat)
    ensures (a * b) * c == a * (b * c)
  {
  }

  lemma AtLeast(a: nat, b: nat)
    requires b > 0
    ensures a * b >= a
  {
    assert a * b == a + a * (b - 1);
  }

  /** The blocks of equal length that a chunk is cut into. */
  function Pieces(addr: nat, length: nat, number: nat): (r: seq<Block>)
    ensures |r| == number
    ensures forall k :: 0 <= k < number ==> r[k] == Block(addr + length * k, length)
  {
    seq(number, k requires 0 <= k => Block(addr + length * k, length))
  }

  function SetOf<T>(s: seq<T>): set<T> {
    set x | x in s
  }

  datatype Result = Result(p: Pool, block: Option<Block>)

  /** Refill: the first piece goes to the caller, the others become the list, whatever it held. */
  function Refill(p: Pool, length: nat, sys: Option<nat>): Result
    requires CanAlloc(p) && IsSlotLength(length)
  {
    var r := ChunkAlloc(p, length, RefillCount, sys);
    ChunkAllocIs(p, length, RefillCount, sys);
    if r.addr.None? then Result(r.p, None)
    else
      var pieces := Pieces(r.addr.value, length, r.number);
      if r.number == 1 then Result(r.p.(blocks := r.p.blocks + {pieces[0]}), Some(pieces[0]))
      else
        Result(r.p.(free := r.p.free[FindFreeListIndex(length) := pieces[1..]], blocks := r.p.blocks + SetOf(pieces)),
          Some(pieces[0]))
  }

  /** RocketCoMalloc; sys is what malloc would answer. A request above ThirdSlot goes to the system. */
  function Malloc(p: Pool, n: nat, sys: Option<nat>): Result
    requires CanAlloc(p) && n > 0
  {
    if n > ThirdSlot then
      if sys.None? then Result(p, None)
      else
        var b := Block(sys.value, n);
        Result(p.(chunks := p.chunks + {b}, blocks := p.blocks + {b}, out := p.out + {b}), Some(b))
    else
      AlignmentIsSlotLength(n);
      var length := DataAlignment(n);
      var i := FindFreeListIndex(length);
      if p.free[i] == [] then
        var r := Refill(p, length, sys);
        if r.block.None? then r else Result(r.p.(out := r.p.out + {r.block.value}), r.block)
      else
        var b := p.free[i][0];
        Result(p.(free := p.free[i := p.free[i][1..]], out := p.out + {b}), Some(b))
  }
}
