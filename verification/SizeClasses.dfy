/** The three rounding regimes of the pool (RocketCoAlloctor.cpp:50-102, RocketCoAlloctor.h:59-61). */
module SizeClasses {
  const FirstSlot: nat := 8 * 1024
  const SecondSlot: nat := 32 * 1024
  const ThirdSlot: nat := 128 * 1024
  const NumLists: nat := 96
  const SizeMax: nat := 0xFFFF_FFFF_FFFF_FFFF

  /** The length of the blocks of a list. */
  function Index2SlotLength(index: nat): (length: nat)
    requires index < NumLists
    ensures length > 0 && length % 512 == 0
  {
    var n := index + 1;
    if n <= 16 then 512 * n
    else if n <= 40 then FirstSlot + (n - 16) * 1024
    else SecondSlot + (n - 40) * 2048
  }

  /** The list for an aligned length; the subtraction wraps for a length below the first slot. */
  function FindFreeListIndex(length: nat): nat {
    var n := if length <= FirstSlot then length / 512
             else if length <= SecondSlot then length / 1024 + 8
             else if length <= ThirdSlot then length / 2048 + 24
             else length;
    if n == 0 then SizeMax else n - 1
  }

  function RoundUp(n: nat, unit: nat): nat
    requires unit > 0
  {
    if n % unit != 0 then n - n % unit + unit else n
  }

  function DataAlignment(n: nat): nat {
    if n <= FirstSlot then RoundUp(n, 512)
    else if n <= SecondSlot then RoundUp(n, 1024)
    else if n <= ThirdSlot then RoundUp(n, 2048)
    else n
  }

  /** A longer list index means longer blocks. */
  lemma SlotLengthIncreases(i: nat, j: nat)
    requires i < j < NumLists
    ensures Index2SlotLength(i) < Index2SlotLength(j)
  {
  }

  /** The two index functions are inverse up to ThirdSlot, and only up to there. */
  lemma IndexOfSlotLength(i: nat)
    requires i < NumLists
    ensures FindFreeListIndex(Index2SlotLength(i)) == i <==> Index2SlotLength(i) <= ThirdSlot
    ensures Index2SlotLength(i) <= ThirdSlot <==> i < 88
  {
  }

  lemma SlotBelow(length: nat)
    requires 512 <= length <= ThirdSlot && length % 512 == 0 && (length > FirstSlot ==> length % 1024 == 0)
    ensures var i := FindFreeListIndex(length);
            i < 88 && Index2SlotLength(i) <= length
            && (Index2SlotLength(i) == length <==> length <= SecondSlot || length % 2048 == 0)
  {
    if length <= FirstSlot {
      assert length == 512 * (length / 512);
    } else if length <= SecondSlot {
      assert length == 1024 * (length / 1024);
    } else {
      assert length == 2048 * (length / 2048) + length % 2048;
    }
  }

  lemma Multiples(m: nat)
    ensures m % 1024 == 0 ==> m % 512 == 0
    ensures m % 2048 == 0 ==> m % 1024 == 0
  {
    if m % 1024 == 0 {
      assert m == 512 * (2 * (m / 1024));
    }
    if m % 2048 == 0 {
      assert m == 1024 * (2 * (m / 2048));
    }
  }

  lemma RoundedTo512(n: nat, bound: nat)
    requires n <= bound && bound % 512 == 0
    ensures n <= RoundUp(n, 512) <= bound && RoundUp(n, 512) % 512 == 0
  {
    var q, b := n / 512, bound / 512;
    assert n == 512 * q + n % 512 && bound == 512 * b;
    if n % 512 != 0 {
      assert RoundUp(n, 512) == 512 * (q + 1) && q < b;
    }
  }

  lemma RoundedTo1024(n: nat, bound: nat)
    requires n <= bound && bound % 1024 == 0
    ensures n <= RoundUp(n, 1024) <= bound && RoundUp(n, 1024) % 1024 == 0
  {
    var q, b := n / 1024, bound / 1024;
    assert n == 1024 * q + n % 1024 && bound == 1024 * b;
    if n % 1024 != 0 {
      assert RoundUp(n, 1024) == 1024 * (q + 1) && q < b;
    }
  }

  lemma RoundedTo2048(n: nat, bound: nat)
    requires n <= bound && bound % 2048 == 0
    ensures n <= RoundUp(n, 2048) <= bound && RoundUp(n, 2048) % 2048 == 0
  {
    var q, b := n / 2048, bound / 2048;
    assert n == 2048 * q + n % 2048 && bound == 2048 * b;
    if n % 2048 != 0 {
      assert RoundUp(n, 2048) == 2048 * (q + 1) && q < b;
    }
  }

  lemma AlignedUnit(n: nat)
    requires 0 < n <= ThirdSlot
    ensures n <= DataAlignment(n) <= ThirdSlot && DataAlignment(n) % 512 == 0
    ensures DataAlignment(n) > FirstSlot ==> DataAlignment(n) % 1024 == 0
    ensures DataAlignment(n) > SecondSlot ==> DataAlignment(n) % 2048 == 0
  {
    hide RoundUp;
    if n <= FirstSlot {
      RoundedTo512(n, FirstSlot);
    } else if n <= SecondSlot {
      RoundedTo1024(n, SecondSlot);
    } else {
      RoundedTo2048(n, ThirdSlot);
    }
    Multiples(DataAlignment(n));
  }

  /** A request is rounded up to a block length, and goes to the list with blocks of just that length. */
  lemma AlignmentIsSlotLength(n: nat)
    requires 0 < n <= ThirdSlot
    ensures n <= DataAlignment(n) <= ThirdSlot && FindFreeListIndex(DataAlignment(n)) < 88
    ensures Index2SlotLength(FindFreeListIndex(DataAlignment(n))) == DataAlignment(n)
  {
    hide DataAlignment, FindFreeListIndex, Index2SlotLength;
    AlignedUnit(n);
    assert DataAlignment(n) >= 512;
    SlotBelow(DataAlignment(n));
  }

  /** The units of rounding: 512 bytes up to 8 KiB, 1024 up to 32 KiB and 2048 up to 128 KiB. */
  lemma AlignmentUnits(n: nat)
    requires 0 < n <= 131072
    ensures var unit := if n <= 8192 then 512 else if n <= 32768 then 1024 else 2048;
            DataAlignment(n) % unit == 0 && n <= DataAlignment(n) < n + unit
  {
    if n <= 8192 {
      RoundedTo512(n, FirstSlot);
    } else if n <= 32768 {
      RoundedTo1024(n, SecondSlot);
    } else {
      RoundedTo2048(n, ThirdSlot);
    }
  }

  /** It is the shortest block length that holds the request. */
  lemma AlignmentIsShortest(n: nat, i: nat)
    requires 0 < n <= ThirdSlot && i < NumLists && n <= Index2SlotLength(i)
    ensures DataAlignment(n) <= Index2SlotLength(i)
  {
    if n <= FirstSlot {
      assert Index2SlotLength(i) % 512 == 0;
    } else if n <= SecondSlot {
      assert Index2SlotLength(i) % 1024 == 0;
    } else {
      assert Index2SlotLength(i) % 2048 == 0;
    }
  }

  /** Rounding a multiple of 512 adds 0, 512, 1024 or 1536, and nothing to a length up to FirstSlot. */
  lemma Rounded(n: nat)
    requires n <= ThirdSlot && n % 512 == 0
    ensures DataAlignment(n) - n in {0, 512, 1024, 1536}
    ensures DataAlignment(n) > n ==> n > FirstSlot
    ensures DataAlignment(n) == n + 1536 <==> n > SecondSlot && n % 2048 == 512
  {
    assert n == 512 * (n / 512);
  }

  /** What ChunkAlloc files of an unused rest: first a block of this length (lines 389-401). */
  function FirstLeftover(rest: nat): (length: nat)
    requires 0 < rest <= ThirdSlot && rest % 512 == 0
    ensures 512 <= length <= rest && length % 512 == 0
  {
    Rounded(rest);
    2 * rest - DataAlignment(rest)
  }

  lemma FirstSlots()
    ensures Index2SlotLength(0) == 512 && Index2SlotLength(1) == 1024
  {
  }

  lemma FirstLeftoverIs(rest: nat)
    requires 0 < rest <= ThirdSlot && rest % 512 == 0
    ensures FirstLeftover(rest) == rest - (DataAlignment(rest) - rest)
  {
  }

  /** A first leftover above FirstSlot is a multiple of 1024. */
  lemma LeftoverUnit(rest: nat)
    requires 0 < rest <= ThirdSlot && rest % 512 == 0
    ensures FirstLeftover(rest) > FirstSlot ==> FirstLeftover(rest) % 1024 == 0
  {
    hide DataAlignment;
    AlignedUnit(rest);
    assert FirstLeftover(rest) == 2 * rest - DataAlignment(rest) >= 512;
    Halves(rest, DataAlignment(rest));
  }

  lemma Halves(rest: nat, aligned: nat)
    requires rest % 512 == 0 && rest <= aligned <= 2 * rest
    ensures aligned % 1024 == 0 ==> (2 * rest - aligned) % 1024 == 0
  {
    if aligned % 1024 == 0 {
      assert 2 * rest - aligned == 1024 * (rest / 512 - aligned / 1024);
    }
  }

  /** The list a leftover goes to has blocks of at most its length, and of exactly its length unless
      the leftover is above SecondSlot and not a multiple of 2048. */
  lemma LeftoverSlot(rest: nat)
    requires 0 < rest <= ThirdSlot && rest % 512 == 0
    ensures var length := FirstLeftover(rest);
            var i := FindFreeListIndex(length);
            i < 88 && Index2SlotLength(i) <= length
            && (Index2SlotLength(i) == length <==> length <= SecondSlot || length % 2048 == 0)
  {
    hide FirstLeftover, FindFreeListIndex, Index2SlotLength;
    LeftoverUnit(rest);
    SlotBelow(FirstLeftover(rest));
  }

  /** After the first leftover 0, 512, 1024 or 1536 bytes remain; the last case only above SecondSlot. */
  lemma SecondLeftover(rest: nat)
    requires 0 < rest <= ThirdSlot && rest % 512 == 0
    ensures var more := rest - FirstLeftover(rest);
            more in {0, 512, 1024, 1536} && (more == 1536 <==> rest > SecondSlot && rest % 2048 == 512)
  {
    hide DataAlignment;
    Rounded(rest);
  }
}
