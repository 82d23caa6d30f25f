/** Any sequence of swaps between contexts, with any code running in between. */
module ContextRuns {
  import opened ContextSwap

  /** The record of every context K, and the context that runs. A context waits from the swap that
      leaves it, or from co_swap_make, to the swap that goes to it. */
  datatype State<!K> = State(r: Registers, mem: Memory, records: map<K, seq<nat>>, current: K, waiting: set<K>)

  datatype Action<K> =
    | Compute(r: Registers, mem: Memory)   // the running code does as it likes, also on others' stacks
    | Make(ctx: K, ss_sp: nat, ss_size: nat, pfn: nat, s: nat, s1: nat)
    | Swap(into: K)

  ghost predicate Enabled<K>(s: State<K>, a: Action<K>) {
    match a
    case Compute(_, _) => true
    case Make(ctx, ss_sp, ss_size, _, _, _) => ctx !in s.waiting && ctx != s.current && ss_sp + ss_size >= 8
    case Swap(into) => into == s.current || (into in s.waiting && into in s.records && |s.records[into]| == NumRegs)
  }

  function Next<K(==)>(s: State<K>, a: Action<K>): State<K>
    requires Enabled(s, a)
  {
    match a
    case Compute(r, mem) => s.(r := r, mem := mem)
    case Make(ctx, ss_sp, ss_size, pfn, s0, s1) =>
      var slot := EntrySlot(ss_sp, ss_size);
      s.(mem := s.mem[slot := pfn], records := s.records[ctx := Made(slot, pfn, s0, s1)], waiting := s.waiting + {ctx})
    case Swap(into) =>
      var records := s.records[s.current := Saved(s.r, At(s.mem, s.r.rsp))];
      var w := records[into];
      State(Entered(w), s.mem[w[kRSP] := w[kRETAddr]], records, into, s.waiting + {s.current} - {into})
  }

  ghost predicate Possible<K>(s: State<K>, acts: seq<Action<K>>)
    decreases |acts|
  {
    acts != [] ==> Enabled(s, acts[0]) && Possible(Next(s, acts[0]), acts[1..])
  }

  function After<K(==)>(s: State<K>, acts: seq<Action<K>>): State<K>
    requires Possible(s, acts)
    decreases |acts|
  {
    if acts == [] then s else After(Next(s, acts[0]), acts[1..])
  }

  /** The run never goes to c. */
  predicate Leaves<K(==)>(acts: seq<Action<K>>, c: K) {
    forall i :: 0 <= i < |acts| && acts[i].Swap? ==> acts[i].into != c
  }

  ghost predicate Waits<K>(s: State<K>, c: K, w: seq<nat>) {
    c in s.waiting && c != s.current && c in s.records && s.records[c] == w
  }

  lemma {:induction false} RecordStays<K>(s: State<K>, acts: seq<Action<K>>, c: K, w: seq<nat>)
    requires Possible(s, acts) && Leaves(acts, c) && Waits(s, c, w)
    ensures Waits(After(s, acts), c, w)
    decreases |acts|
  {
    if acts != [] {
      assert Waits(Next(s, acts[0]), c, w);
      RecordStays(Next(s, acts[0]), acts[1..], c, w);
    }
  }

  /** A context that was left with registers r, and the return address ret at r.rsp, goes on as the
      caller of coctx_swap expects: at ret, with rsp past it and the callee-saved registers of section
      3.2.1 of the System V AMD64 ABI as they were; and so are the other registers of the record. */
  ghost predicate Returned(r: Registers, ret: nat, r': Registers) {
    && r'.rip == ret && r'.rsp == r.rsp + 8
    && r'.rcx == r.rcx && r'.rdx == r.rdx && r'.rsi == r.rsi && r'.rdi == r.rdi && r'.r8 == r.r8 && r'.r9 == r.r9
    && r'.rbp == r.rbp && r'.rbx == r.rbx && r'.r12 == r.r12 && r'.r13 == r.r13 && r'.r14 == r.r14 && r'.r15 == r.r15
  }

  /** Whatever runs in between, and whatever it writes to the slot at the saved rsp. */
  lemma RoundTrip<K>(s: State<K>, into: K, acts: seq<Action<K>>)
    requires Enabled(s, Swap(into)) && into != s.current
    requires Possible(Next(s, Swap(into)), acts) && Leaves(acts, s.current)
    ensures var t := After(Next(s, Swap(into)), acts);
            && Enabled(t, Swap(s.current))
            && Returned(s.r, At(s.mem, s.r.rsp), Next(t, Swap(s.current)).r)
            && At(Next(t, Swap(s.current)).mem, s.r.rsp) == At(s.mem, s.r.rsp)
  {
    RecordStays(Next(s, Swap(into)), acts, s.current, Saved(s.r, At(s.mem, s.r.rsp)));
  }

  /** A swap from a context to itself returns at once. */
  lemma SwapToSelf<K>(s: State<K>)
    ensures var t := Next(s, Swap(s.current));
            && Returned(s.r, At(s.mem, s.r.rsp), t.r)
            && (forall a :: At(t.mem, a) == At(s.mem, a)) && t.current == s.current && t.waiting == s.waiting - {s.current}
  {
  }

  predicate AllZero(s: seq<nat>) {
    forall i :: 0 <= i < |s| ==> s[i] == 0
  }

  /** A made context enters pfn with its two arguments, all other registers zero, and the alignment of
      section 3.2.2 of the ABI. */
  lemma EntersFirst<K>(s: State<K>, a: Action<K>, acts: seq<Action<K>>)
    requires a.Make? && Enabled(s, a) && Possible(Next(s, a), acts) && Leaves(acts, a.ctx)
    ensures var t := After(Next(s, a), acts);
            && Enabled(t, Swap(a.ctx))
            && var t' := Next(t, Swap(a.ctx));
               && t'.r.rip == a.pfn && t'.r.rdi == a.s && t'.r.rsi == a.s1
               && t'.r.rsp % 16 == 8 && t'.r.rsp == EntrySlot(a.ss_sp, a.ss_size) + 8
               && At(t'.mem, t'.r.rsp - 8) == a.pfn
               && AllZero([t'.r.rax, t'.r.rbx, t'.r.rcx, t'.r.rdx, t'.r.rbp, t'.r.r8, t'.r.r9,
                           t'.r.r12, t'.r.r13, t'.r.r14, t'.r.r15])
  {
    RecordStays(Next(s, a), acts, a.ctx, Made(EntrySlot(a.ss_sp, a.ss_size), a.pfn, a.s, a.s1));
  }

  /** The first return address lies in the buffer exactly when the buffer has an aligned word. */
  lemma EntryInBuffer(ss_sp: nat, ss_size: nat)
    requires ss_sp + ss_size >= 8
    ensures ss_sp <= EntrySlot(ss_sp, ss_size) && EntrySlot(ss_sp, ss_size) + 8 <= ss_sp + ss_size
            <==> ss_size >= 8 + (16 - ss_sp % 16) % 16
  {
    hide EntrySlot;
    assert EntrySlot(ss_sp, ss_size) == (ss_sp + ss_size - 8) / 16 * 16 by { SlotIs(ss_sp, ss_size); }
    var last, up := ss_sp + ss_size - 8, ss_sp + (16 - ss_sp % 16) % 16;
    NextMultiple(ss_sp);
    MultipleBelow(last, up / 16);
  }

  lemma SlotIs(ss_sp: nat, ss_size: nat)
    requires ss_sp + ss_size >= 8
    ensures EntrySlot(ss_sp, ss_size) == (ss_sp + ss_size - 8) / 16 * 16
  {
  }

  lemma NextMultiple(a: nat)
    ensures var up := a + (16 - a % 16) % 16; up == 16 * (up / 16) && a <= up < a + 16
  {
    var q, r := a / 16, a % 16;
    assert a == 16 * q + r;
    if r != 0 {
      assert a + (16 - r) == 16 * (q + 1);
    }
  }

  lemma MultipleBelow(a: nat, k: nat)
    ensures a / 16 * 16 >= 16 * k <==> a >= 16 * k
    ensures a / 16 * 16 <= a < a / 16 * 16 + 16
  {
  }
}
