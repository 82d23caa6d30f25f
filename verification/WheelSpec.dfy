/** What the time wheel of Co_Routine.cpp:241-329 stands for: the held items in insertion order,
    each with its expiry, and the window of expiries it can hold. The circular array of slots is a
    representation of that, related to it by `Represents`. */
module WheelSpec {
  import opened Sequences

  const DefaultSize: nat := 60 * 60 * 24

  datatype Entry<I> = Entry(item: I, due: int)

  datatype Wheel<I> = Wheel(start: int, held: seq<Entry<I>>)

  // ---------- the plain item -> expiry view ----------

  /** The held items that expire at t, in insertion order. */
  function DueAt<I>(held: seq<Entry<I>>, t: int): seq<I> {
    if held == [] then []
    else (if held[0].due == t then [held[0].item] else []) + DueAt(held[1..], t)
  }

  /** The held items that expire in [from, upto): by expiry, then by insertion. */
  function DueRange<I>(held: seq<Entry<I>>, from: int, upto: int): seq<I>
    decreases upto - from
  {
    if from >= upto then [] else DueRange(held, from, upto - 1) + DueAt(held, upto - 1)
  }

  function Later<I>(held: seq<Entry<I>>, now: int): seq<Entry<I>> {
    if held == [] then []
    else (if held[0].due > now then [held[0]] else []) + Later(held[1..], now)
  }

  function Drop<I(==)>(held: seq<Entry<I>>, x: I): seq<Entry<I>> {
    if held == [] then []
    else (if held[0].item == x then [] else [held[0]]) + Drop(held[1..], x)
  }

  function Items<I>(held: seq<Entry<I>>): (r: seq<I>)
    ensures |r| == |held|
  {
    seq(|held|, i requires 0 <= i < |held| => held[i].item)
  }

  ghost predicate InWindow<I>(w: Wheel<I>) {
    && 0 <= w.start
    && (w.start == 0 ==> w.held == [])
    && forall i :: 0 <= i < |w.held| ==> w.start <= w.held[i].due < w.start + DefaultSize
  }

  // ---------- the operations ----------

  /** Start is 0 until the first use, and then the time of that use. */
  function Begin<I>(w: Wheel<I>, now: int): Wheel<I> {
    if w.start == 0 then w.(start := now) else w
  }

  predicate Accepts<I>(w: Wheel<I>, expire: int, now: int) {
    && Begin(w, now).start <= now <= expire
    && expire - Begin(w, now).start < DefaultSize
  }

  function AddTimeOut<I>(w: Wheel<I>, item: I, expire: int, now: int): Wheel<I> {
    var b := Begin(w, now);
    if Accepts(w, expire, now) then b.(held := b.held + [Entry(item, expire)]) else b
  }

  function TakenOut<I>(w: Wheel<I>, now: int): seq<I> {
    DueRange(w.held, Begin(w, now).start, now + 1)
  }

  function TakeOutTimeout<I>(w: Wheel<I>, now: int): Wheel<I> {
    if now < Begin(w, now).start then w else Wheel(now, Later(w.held, now))
  }

  // ---------- the slots ----------

  function Slot(index: int, k: int): (r: int)
    ensures 0 <= r < DefaultSize
  {
    (index + k) % DefaultSize
  }

  /** The slots in the order they come due, starting from `index`. */
  function Unrolled<I>(slots: seq<seq<I>>, index: int): (r: seq<seq<I>>)
    requires |slots| == DefaultSize
  {
    seq(DefaultSize, k requires 0 <= k < DefaultSize => slots[Slot(index, k)])
  }

  /** The held items, tick by tick from `start` on. */
  function Timeline<I>(w: Wheel<I>): seq<seq<I>> {
    seq(DefaultSize, k requires 0 <= k < DefaultSize => DueAt(w.held, w.start + k))
  }

  ghost predicate Represents<I>(slots: seq<seq<I>>, index: int, w: Wheel<I>) {
    |slots| == DefaultSize && Unrolled(slots, index) == Timeline(w)
  }

  lemma RepresentsAt<I>(slots: seq<seq<I>>, index: int, w: Wheel<I>, k: int)
    requires Represents(slots, index, w) && 0 <= k < DefaultSize
    ensures slots[Slot(index, k)] == DueAt(w.held, w.start + k)
  {
    hide Slot;
    assert Unrolled(slots, index)[k] == Timeline(w)[k];
  }

  lemma SlotsDiffer(index: int, j: int, k: int)
    requires 0 <= j < DefaultSize && 0 <= k < DefaultSize && j != k
    ensures Slot(index, j) != Slot(index, k)
  {
    var a, b := (index + j) / DefaultSize, (index + k) / DefaultSize;
    assert index + j == a * DefaultSize + Slot(index, j);
    assert index + k == b * DefaultSize + Slot(index, k);
  }

  lemma SlotInverse(index: int, s: int) returns (k: int)
    requires 0 <= s < DefaultSize
    ensures 0 <= k < DefaultSize && Slot(index, k) == s
  {
    var q := (s - index) / DefaultSize;
    k := (s - index) % DefaultSize;
    assert index + k == s - DefaultSize * q;
    assert (s - DefaultSize * q) % DefaultSize == s;
  }

  lemma SlotShift(index: int, d: int, k: int)
    requires 0 <= d < DefaultSize && 0 <= k < DefaultSize
    ensures Slot(index + d, k) == Slot(index, if d + k < DefaultSize then d + k else d + k - DefaultSize)
  {
  }

  // ---------- reading the view ----------

  lemma {:induction false} DueAtHas<I>(held: seq<Entry<I>>, t: int, x: I)
    ensures x in DueAt(held, t) <==> Entry(x, t) in held
  {
    if held != [] {
      DueAtHas(held[1..], t, x);
    }
  }

  lemma {:induction false} DueRangeHas<I>(held: seq<Entry<I>>, from: int, upto: int, x: I)
    ensures x in DueRange(held, from, upto) <==> (exists t :: from <= t < upto && Entry(x, t) in held)
    decreases upto - from
  {
    if from < upto {
      DueRangeHas(held, from, upto - 1, x);
      DueAtHas(held, upto - 1, x);
    }
  }

  ghost predicate KeepsLater<I>(r: seq<Entry<I>>, held: seq<Entry<I>>, now: int) {
    && (forall e :: e in held ==> (e in r <==> e.due > now))
    && (forall e :: e in r ==> e in held && e.due > now)
  }

  lemma {:induction false} LaterHas<I>(held: seq<Entry<I>>, now: int)
    ensures KeepsLater(Later(held, now), held, now)
  {
    if held != [] {
      LaterHas(held[1..], now);
    }
  }

  lemma {:induction false} LaterBounds<I>(held: seq<Entry<I>>, now: int, bound: int)
    requires forall i :: 0 <= i < |held| ==> held[i].due < bound
    ensures forall i :: 0 <= i < |Later(held, now)| ==> now < Later(held, now)[i].due < bound
  {
    if held != [] {
      LaterBounds(held[1..], now, bound);
    }
  }

  lemma {:induction false} DropBounds<I>(held: seq<Entry<I>>, x: I, from: int, bound: int)
    requires forall i :: 0 <= i < |held| ==> from <= held[i].due < bound
    ensures forall i :: 0 <= i < |Drop(held, x)| ==> from <= Drop(held, x)[i].due < bound
  {
    if held != [] {
      DropBounds(held[1..], x, from, bound);
    }
  }

  lemma {:induction false} DueAtLater<I>(held: seq<Entry<I>>, now: int, t: int)
    ensures DueAt(Later(held, now), t) == if t > now then DueAt(held, t) else []
  {
    if held != [] {
      DueAtLater(held[1..], now, t);
      assert Later(held, now)[(if held[0].due > now then 1 else 0)..] == Later(held[1..], now);
    }
  }

  lemma {:induction false} DueAtAppend<I>(held: seq<Entry<I>>, e: Entry<I>, t: int)
    ensures DueAt(held + [e], t) == DueAt(held, t) + if e.due == t then [e.item] else []
  {
    if held == [] {
      assert held + [e] == [e];
    } else {
      assert (held + [e])[1..] == held[1..] + [e];
      DueAtAppend(held[1..], e, t);
    }
  }

  lemma {:induction false} DueAtDrop<I>(held: seq<Entry<I>>, x: I, t: int)
    ensures DueAt(Drop(held, x), t) == Without(DueAt(held, t), x)
  {
    if held != [] {
      DueAtDrop(held[1..], x, t);
      assert Drop(held, x)[(if held[0].item == x then 0 else 1)..] == Drop(held[1..], x);
      WithoutConcat(if held[0].due == t then [held[0].item] else [], DueAt(held[1..], t), x);
    }
  }

  lemma {:induction false} DueAtOutside<I>(held: seq<Entry<I>>, t: int)
    requires forall i :: 0 <= i < |held| ==> held[i].due != t
    ensures DueAt(held, t) == []
  {
    if held != [] {
      DueAtOutside(held[1..], t);
    }
  }

  lemma {:induction false} DueRangeOutside<I>(held: seq<Entry<I>>, from: int, mid: int, upto: int)
    requires mid <= upto && forall i :: 0 <= i < |held| ==> held[i].due < mid
    requires from <= mid
    ensures DueRange(held, from, upto) == DueRange(held, from, mid)
    decreases upto - mid
  {
    if mid < upto {
      DueRangeOutside(held, from, mid, upto - 1);
      DueAtOutside(held, upto - 1);
    }
  }

  ghost predicate KeepsOthers<I>(r: seq<Entry<I>>, held: seq<Entry<I>>, x: I) {
    && (forall e :: e in held ==> (e in r <==> e.item != x))
    && (forall e :: e in r ==> e in held && e.item != x)
  }

  lemma {:induction false} DropHas<I>(held: seq<Entry<I>>, x: I)
    ensures KeepsOthers(Drop(held, x), held, x)
  {
    if held != [] {
      DropHas(held[1..], x);
    }
  }

  // ---------- the slots keep representing the view ----------

  lemma EmptyRepresents<I>(slots: seq<seq<I>>)
    requires |slots| == DefaultSize && forall i :: 0 <= i < |slots| ==> slots[i] == []
    ensures Represents(slots, 0, Wheel(0, []))
  {
    forall k | 0 <= k < DefaultSize ensures Unrolled(slots, 0)[k] == Timeline(Wheel<I>.Wheel(0, []))[k] {
      assert slots[Slot(0, k)] == [] == DueAt<I>([], k);
    }
  }

  lemma BeginRepresents<I>(slots: seq<seq<I>>, index: int, w: Wheel<I>, now: int)
    requires Represents(slots, index, w) && InWindow(w) && now > 0
    ensures Represents(slots, if w.start == 0 then 0 else index, Begin(w, now)) && InWindow(Begin(w, now))
  {
    if w.start == 0 {
      var b := Begin(w, now);
      forall k | 0 <= k < DefaultSize ensures Unrolled(slots, 0)[k] == Timeline(b)[k] {
        var j := SlotInverse(index, k);
        RepresentsAt(slots, index, w, j);
        assert Slot(0, k) == Slot(index, j);
        assert DueAt(w.held, w.start + j) == [] == DueAt(b.held, b.start + k);
      }
    }
  }

  lemma AddRepresents<I>(slots: seq<seq<I>>, index: int, w: Wheel<I>, item: I, expire: int, now: int)
    requires Represents(slots, index, w) && InWindow(w) && 0 < w.start && Accepts(w, expire, now)
    ensures var i := Slot(index, expire - w.start);
            Represents(slots[i := slots[i] + [item]], index, AddTimeOut(w, item, expire, now))
    ensures InWindow(AddTimeOut(w, item, expire, now))
  {
    hide Slot;
    var d := expire - w.start;
    var v := AddTimeOut(w, item, expire, now);
    forall k | 0 <= k < DefaultSize
      ensures Unrolled(slots[Slot(index, d) := slots[Slot(index, d)] + [item]], index)[k] == Timeline(v)[k]
    {
      RepresentsAt(slots, index, w, k);
      DueAtAppend(w.held, Entry(item, expire), w.start + k);
      if k != d {
        SlotsDiffer(index, d, k);
      }
    }
  }

  lemma DropRepresents<I>(slots: seq<seq<I>>, slots': seq<seq<I>>, index: int, w: Wheel<I>, x: I)
    requires Represents(slots, index, w) && InWindow(w)
    requires |slots'| == |slots| && forall i :: 0 <= i < |slots| ==> slots'[i] == Without(slots[i], x)
    ensures Represents(slots', index, w.(held := Drop(w.held, x))) && InWindow(w.(held := Drop(w.held, x)))
  {
    hide Slot;
    forall k | 0 <= k < DefaultSize
      ensures Unrolled(slots', index)[k] == Timeline(w.(held := Drop(w.held, x)))[k]
    {
      RepresentsAt(slots, index, w, k);
      DueAtDrop(w.held, x, w.start + k);
    }
    DropBounds(w.held, x, w.start, w.start + DefaultSize);
  }

  /** The slots visited by TakeOutTimeout: Now - Start + 1 of them, clamped to the whole wheel. */
  function Visited<I>(w: Wheel<I>, now: int): int {
    if now - w.start + 1 > DefaultSize then DefaultSize else now - w.start + 1
  }

  lemma TakenFromVisited<I>(w: Wheel<I>, now: int)
    requires InWindow(w) && 0 < w.start <= now
    ensures DueRange(w.held, w.start, w.start + Visited(w, now)) == TakenOut(w, now)
  {
    hide DueRange;
    if Visited(w, now) == DefaultSize {
      DueRangeOutside(w.held, w.start, w.start + DefaultSize, now + 1);
    }
  }

  /** The slot array after the first i slots from `index` on are emptied, and what they held. */
  function Cleared<I>(slots: seq<seq<I>>, index: int, i: nat): (r: seq<seq<I>>)
    requires |slots| == DefaultSize
    ensures |r| == |slots|
  {
    if i == 0 then slots else Cleared(slots, index, i - 1)[Slot(index, i - 1) := []]
  }

  function Collected<I>(slots: seq<seq<I>>, index: int, i: nat): seq<I>
    requires |slots| == DefaultSize
  {
    if i == 0 then [] else Collected(slots, index, i - 1) + Cleared(slots, index, i - 1)[Slot(index, i - 1)]
  }

  lemma {:induction false} ClearedAt<I>(slots: seq<seq<I>>, index: int, i: nat, k: nat)
    requires |slots| == DefaultSize && i <= DefaultSize && k < DefaultSize
    ensures Cleared(slots, index, i)[Slot(index, k)] == if k < i then [] else slots[Slot(index, k)]
  {
    hide Slot;
    if i > 0 {
      ClearedAt(slots, index, i - 1, k);
      if k != i - 1 {
        SlotsDiffer(index, i - 1, k);
      }
    }
  }

  lemma {:induction false} CollectedIsDue<I>(slots: seq<seq<I>>, index: int, i: nat, w: Wheel<I>)
    requires Represents(slots, index, w) && i <= DefaultSize
    ensures Collected(slots, index, i) == DueRange(w.held, w.start, w.start + i)
  {
    hide Slot, DueAt, Unrolled, Timeline, Cleared;
    if i > 0 {
      CollectedIsDue(slots, index, i - 1, w);
      ClearedAt(slots, index, i - 1, i - 1);
      RepresentsAt(slots, index, w, i - 1);
    }
  }

  lemma TakeOutRepresents<I>(slots: seq<seq<I>>, index: int, w: Wheel<I>, now: int)
    requires Represents(slots, index, w) && InWindow(w) && 0 < w.start <= now
    ensures Represents(Cleared(slots, index, Visited(w, now)), index + Visited(w, now) - 1, TakeOutTimeout(w, now))
  {
    var d := Visited(w, now) - 1;
    var s', w' := Cleared(slots, index, d + 1), TakeOutTimeout(w, now);
    forall k | 0 <= k < DefaultSize ensures Unrolled(s', index + d)[k] == Timeline(w')[k] {
      ClearedContents(slots, index, w, now, d, k);
    }
  }

  lemma TakeOutKeepsWindow<I>(w: Wheel<I>, now: int)
    requires InWindow(w) && 0 < w.start <= now
    ensures InWindow(TakeOutTimeout(w, now))
  {
    LaterBounds(w.held, now, w.start + DefaultSize);
  }

  lemma CollectedIsTaken<I>(slots: seq<seq<I>>, index: int, w: Wheel<I>, now: int)
    requires Represents(slots, index, w) && InWindow(w) && 0 < w.start <= now
    ensures Collected(slots, index, Visited(w, now)) == TakenOut(w, now)
  {
    CollectedIsDue(slots, index, Visited(w, now), w);
    TakenFromVisited(w, now);
  }

  /** What emptying `interval` slots does to the wheel. */
  lemma TakeOutSlots<I>(slots: seq<seq<I>>, index: int, w: Wheel<I>, now: int, interval: nat)
    requires Represents(slots, index, w) && InWindow(w) && 0 < w.start <= now && interval == Visited(w, now)
    ensures var w' := Wheel(now, Later(w.held, now));
            InWindow(w') && Represents(Cleared(slots, index, interval), index + (interval - 1), w')
    ensures Collected(slots, index, interval) == TakenOut(w, now)
  {
    TakeOutRepresents(slots, index, w, now);
    TakeOutKeepsWindow(w, now);
    CollectedIsTaken(slots, index, w, now);
  }

  /** After a take-out the slot k places on holds what is due k ticks after Now. */
  lemma ClearedContents<I>(slots: seq<seq<I>>, index: int, w: Wheel<I>, now: int, d: int, k: int)
    requires Represents(slots, index, w) && InWindow(w) && 0 < w.start <= now
    requires d == Visited(w, now) - 1 && 0 <= k < DefaultSize
    ensures Cleared(slots, index, d + 1)[Slot(index + d, k)] == DueAt(Later(w.held, now), now + k)
  {
    hide Slot, Cleared, Unrolled, Timeline, InWindow;
    var j := if d + k < DefaultSize then d + k else d + k - DefaultSize;
    SlotShift(index, d, k);
    ClearedAt(slots, index, d + 1, j);
    RepresentsAt(slots, index, w, j);
    DueAfter(w, now, d, k, j);
  }

  lemma DueAfter<I>(w: Wheel<I>, now: int, d: int, k: int, j: int)
    requires InWindow(w) && 0 < w.start <= now && d == Visited(w, now) - 1
    requires 0 <= k < DefaultSize && j == if d + k < DefaultSize then d + k else d + k - DefaultSize
    ensures DueAt(Later(w.held, now), now + k) == if j < d + 1 then [] else DueAt(w.held, w.start + j)
  {
    DueAtLater(w.held, now, now + k);
    if d < now - w.start || d + k >= DefaultSize {
      LaterBounds(w.held, now, w.start + DefaultSize);
      DueAtOutside(Later(w.held, now), now + k);
    }
  }

  // ---------- what the wheel promises ----------

  lemma OneEntry<I>(held: seq<Entry<I>>, e: Entry<I>, f: Entry<I>)
    requires Distinct(Items(held)) && e in held && f in held && e.item == f.item
    ensures e == f
  {
    var i :| 0 <= i < |held| && held[i] == e;
    var j :| 0 <= j < |held| && held[j] == f;
    assert Items(held)[i] == Items(held)[j];
  }

  /** An item sits in the slot of its expiry and in no other. */
  lemma ItemSlot<I>(slots: seq<seq<I>>, index: int, w: Wheel<I>, i: int, s: int)
    requires Represents(slots, index, w) && InWindow(w) && Distinct(Items(w.held))
    requires 0 <= i < |w.held| && 0 <= s < DefaultSize
    ensures w.held[i].item in slots[s] <==> s == Slot(index, w.held[i].due - w.start)
  {
    hide Slot, DueAt, Unrolled, Timeline, Distinct, Items;
    var e := w.held[i];
    DueAtHas(w.held, e.due, e.item);
    RepresentsAt(slots, index, w, e.due - w.start);
    var k := SlotInverse(index, s);
    RepresentsAt(slots, index, w, k);
    DueAtHas(w.held, w.start + k, e.item);
    if Entry(e.item, w.start + k) in w.held {
      OneEntry(w.held, e, Entry(e.item, w.start + k));
    }
  }

  /** TakeOutTimeout moves out the items that are due, all of them and nothing else, and keeps the rest. */
  lemma TakeOutIsExact<I>(w: Wheel<I>, now: int, e: Entry<I>)
    requires InWindow(w) && 0 < w.start <= now && Distinct(Items(w.held)) && e in w.held
    ensures e.item in TakenOut(w, now) <==> e.due <= now
    ensures e in TakeOutTimeout(w, now).held <==> e.due > now
  {
    hide DueRange, Later, Distinct, Items;
    DueRangeHas(w.held, w.start, now + 1, e.item);
    LaterHas(w.held, now);
    if e.item in TakenOut(w, now) {
      var t :| w.start <= t < now + 1 && Entry(e.item, t) in w.held;
      OneEntry(w.held, e, Entry(e.item, t));
    }
  }

  /** x leaves before y under a stable sort by expiry. */
  ghost predicate Precedes<I>(held: seq<Entry<I>>, x: I, y: I) {
    exists p, q :: Earlier(held, p, q) && held[p].item == x && held[q].item == y
  }

  ghost predicate Earlier<I>(held: seq<Entry<I>>, p: int, q: int) {
    && 0 <= p < |held| && 0 <= q < |held|
    && (held[p].due < held[q].due || (held[p].due == held[q].due && p < q))
  }

  lemma {:induction false} DueAtOrder<I>(held: seq<Entry<I>>, t: int, i: int, j: int) returns (p: int, q: int)
    requires 0 <= i < j < |DueAt(held, t)|
    ensures 0 <= p < q < |held| && held[p].due == t && held[q].due == t
    ensures held[p].item == DueAt(held, t)[i] && held[q].item == DueAt(held, t)[j]
  {
    var rest := DueAt(held[1..], t);
    if held[0].due != t {
      p, q := DueAtOrder(held[1..], t, i, j);
      p, q := p + 1, q + 1;
    } else if i > 0 {
      p, q := DueAtOrder(held[1..], t, i - 1, j - 1);
      p, q := p + 1, q + 1;
    } else {
      DueAtHas(held[1..], t, rest[j - 1]);
      p := 0;
      q :| 0 <= q < |held[1..]| && held[1..][q] == Entry(rest[j - 1], t);
      q := q + 1;
    }
  }

  /** The items one TakeOutTimeout appends come out by expiry, and by insertion within one expiry. */
  lemma {:induction false} TakeOutIsStableSort<I>(held: seq<Entry<I>>, from: int, upto: int, i: int, j: int)
    requires 0 <= i < j < |DueRange(held, from, upto)|
    ensures Precedes(held, DueRange(held, from, upto)[i], DueRange(held, from, upto)[j])
    decreases upto - from
  {
    var a, b := DueRange(held, from, upto - 1), DueAt(held, upto - 1);
    if j < |a| {
      TakeOutIsStableSort(held, from, upto - 1, i, j);
    } else if i >= |a| {
      var p, q := DueAtOrder(held, upto - 1, i - |a|, j - |a|);
      assert Earlier(held, p, q);
    } else {
      DueRangeHas(held, from, upto - 1, a[i]);
      DueAtHas(held, upto - 1, b[j - |a|]);
      var t :| from <= t < upto - 1 && Entry(a[i], t) in held;
      var p :| 0 <= p < |held| && held[p] == Entry(a[i], t);
      var q :| 0 <= q < |held| && held[q] == Entry(b[j - |a|], upto - 1);
      assert Earlier(held, p, q);
    }
  }

  // ---------- the held items as a set ----------

  ghost predicate Holds<I>(held: seq<Entry<I>>, x: I) {
    exists e :: e in held && e.item == x
  }

  lemma {:induction false} InItems<I>(held: seq<Entry<I>>, x: I)
    ensures x in Items(held) <==> Holds(held, x)
  {
    if x in Items(held) {
      var i :| 0 <= i < |held| && Items(held)[i] == x;
      assert held[i] in held;
    }
    if Holds(held, x) {
      var e :| e in held && e.item == x;
      var i :| 0 <= i < |held| && held[i] == e;
      assert Items(held)[i] == x;
    }
  }

  lemma {:induction false} ItemsDrop<I>(held: seq<Entry<I>>, x: I)
    ensures Items(Drop(held, x)) == Without(Items(held), x)
  {
    if held != [] {
      ItemsDrop(held[1..], x);
      assert Items(held) == [held[0].item] + Items(held[1..]);
      assert Items(Drop(held, x)) == (if held[0].item == x then [] else [held[0].item]) + Items(Drop(held[1..], x));
    }
  }

  ghost predicate SomeOf<T>(r: seq<T>, s: seq<T>) {
    forall x :: x in r ==> x in s
  }

  lemma {:induction false} LaterItems<I>(held: seq<Entry<I>>, now: int)
    requires Distinct(Items(held))
    ensures Distinct(Items(Later(held, now)))
    ensures SomeOf(Items(Later(held, now)), Items(held))
  {
    if held != [] {
      var x := held[0].item;
      ghost var items := Items(held);
      assert items[0] == x && Items(held[1..]) == items[1..];
      LaterItems(held[1..], now);
      var rest := Later(held[1..], now);
      if held[0].due > now {
        assert Later(held, now) == [held[0]] + rest;
        assert Items(Later(held, now)) == [x] + Items(rest);
        assert x !in items[1..];
      } else {
        assert Later(held, now) == rest;
      }
    }
  }

  lemma {:induction false} DueAtDistinct<I>(held: seq<Entry<I>>, t: int)
    requires Distinct(Items(held))
    ensures Distinct(DueAt(held, t))
  {
    if held != [] {
      assert Items(held[1..]) == Items(held)[1..];
      DueAtDistinct(held[1..], t);
      var x := held[0].item;
      DueAtHas(held[1..], t, x);
      assert x !in Items(held[1..]) by {
        assert Items(held)[0] == x;
      }
      InItems(held[1..], x);
      assert Entry(x, t).item == x;
    }
  }

  lemma {:induction false} DueRangeDistinct<I>(held: seq<Entry<I>>, from: int, upto: int)
    requires Distinct(Items(held))
    ensures Distinct(DueRange(held, from, upto))
    decreases upto - from
  {
    if from < upto {
      DueRangeDistinct(held, from, upto - 1);
      DueAtDistinct(held, upto - 1);
      var a, b := DueRange(held, from, upto - 1), DueAt(held, upto - 1);
      forall x | x in a && x in b ensures false {
        DueRangeHas(held, from, upto - 1, x);
        DueAtHas(held, upto - 1, x);
        var t :| from <= t < upto - 1 && Entry(x, t) in held;
        OneEntry(held, Entry(x, t), Entry(x, upto - 1));
      }
      forall i, j | 0 <= i < |a| && 0 <= j < |b| ensures a[i] != b[j] {
        assert a[i] in a && b[j] in b;
      }
    }
  }

  lemma SlotToHeld<I>(slots: seq<seq<I>>, index: int, w: Wheel<I>, x: I, s: int)
    requires Represents(slots, index, w) && 0 <= s < DefaultSize && x in slots[s]
    ensures x in Items(w.held)
  {
    var k := SlotInverse(index, s);
    RepresentsAt(slots, index, w, k);
    DueAtHas(w.held, w.start + k, x);
    InItems(w.held, x);
    assert Entry(x, w.start + k).item == x;
  }

  lemma HeldToSlot<I>(slots: seq<seq<I>>, index: int, w: Wheel<I>, x: I) returns (s: int)
    requires Represents(slots, index, w) && InWindow(w) && x in Items(w.held)
    ensures 0 <= s < DefaultSize && x in slots[s]
  {
    var i :| 0 <= i < |w.held| && Items(w.held)[i] == x;
    var k := w.held[i].due - w.start;
    s := Slot(index, k);
    RepresentsAt(slots, index, w, k);
    assert Entry(x, w.held[i].due) == w.held[i];
    DueAtHas(w.held, w.held[i].due, x);
  }
}
