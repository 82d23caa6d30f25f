/** coctx_swap on x86-64 (coctx_swap.S:31-65) and the contexts co_swap_make and co_swap_init build
    (coswap.cpp:130-150). The stacks are a map of 8-byte words by address; a word never stored is 0. */
module ContextSwap {
  type Memory = map<nat, nat>

  function At(mem: Memory, a: nat): nat {
    if a in mem then mem[a] else 0
  }

  datatype Registers = Registers(rax: nat, rbx: nat, rcx: nat, rdx: nat, rsi: nat, rdi: nat, rbp: nat, rsp: nat,
                                 r8: nat, r9: nat, r12: nat, r13: nat, r14: nat, r15: nat, rip: nat)

  // Indices into regs (coswap.cpp:64-84).
  const kRDI := 7
  const kRSI := 8
  const kRETAddr := 9
  const kRSP := 13
  const NumRegs := 14

  /** What coctx_swap puts into the context it leaves, called with registers r and return address ret. */
  function Saved(r: Registers, ret: nat): (w: seq<nat>)
    ensures |w| == NumRegs
  {
    [r.r15, r.r14, r.r13, r.r12, r.r9, r.r8, r.rbp, r.rdi, r.rsi, ret, r.rdx, r.rcx, r.rbx, r.rsp]
  }

  /** The registers a context starts or goes on with: rsp is past the return address, which is in rip. */
  function Entered(w: seq<nat>): Registers
    requires |w| == NumRegs
  {
    Registers(0, w[12], w[11], w[10], w[8], w[7], w[6], w[13] + 8, w[5], w[4], w[3], w[2], w[1], w[0], w[9])
  }

  /** Where co_swap_make puts the first return address: sp & -16 of the last word of the stack. */
  function EntrySlot(ss_sp: nat, ss_size: nat): (slot: nat)
    requires ss_sp + ss_size >= 8
    ensures slot % 16 == 0 && slot + 8 <= ss_sp + ss_size < slot + 24
  {
    (ss_sp + ss_size - 8) / 16 * 16
  }

  /** The context co_swap_make builds: all zero but for the four registers it sets. */
  function Made(slot: nat, pfn: nat, s: nat, s1: nat): (w: seq<nat>)
    ensures |w| == NumRegs && w[kRSP] == slot && w[kRETAddr] == pfn && w[kRDI] == s && w[kRSI] == s1
    ensures forall i :: 0 <= i < NumRegs && i !in {kRSP, kRETAddr, kRDI, kRSI} ==> w[i] == 0
  {
    [0, 0, 0, 0, 0, 0, 0, s, s1, pfn, 0, 0, 0, slot]
  }

  /** co_swap_t. */
  class co_swap_t {
    const regs: array<nat>
    var ss_size: nat
    var ss_sp: nat

    /** co_swap_init: all zero. */
    constructor ()
      ensures fresh(regs) && regs.Length == NumRegs && regs[..] == seq(NumRegs, _ => 0)
      ensures ss_size == 0 && ss_sp == 0
    {
      regs := new nat[NumRegs](_ => 0);
      ss_size, ss_sp := 0, 0;
    }
  }

  /** The processor and the stacks. */
  class Cpu {
    var r: Registers
    var mem: Memory

    /** The first half of coctx_swap, with rdi at the record. */
    method SaveRegisters(cst: co_swap_t)
      requires cst.regs.Length == NumRegs
      modifies cst.regs, this`r
      ensures cst.regs[..] == old(Saved(r, At(mem, r.rsp))) && r == old(r).(rax := 0)
    {
      var regs := cst.regs;
      ghost var w := Saved(r, At(mem, r.rsp));
      r := r.(rax := r.rsp);  // leaq (%rsp),%rax
      regs[13] := r.rax;  // movq %rax, 104(%rdi)
      regs[12] := r.rbx;
      regs[11] := r.rcx;
      regs[10] := r.rdx;
      r := r.(rax := At(mem, r.rax));  // movq 0(%rax), %rax
      regs[9] := r.rax;
      assert regs[9..] == w[9..];
      regs[8] := r.rsi;
      regs[7] := r.rdi;
      regs[6] := r.rbp;
      regs[5] := r.r8;
      regs[4] := r.r9;
      assert regs[4..9] == w[4..9] && regs[9..] == w[9..];
      regs[3] := r.r12;
      regs[2] := r.r13;
      regs[1] := r.r14;
      regs[0] := r.r15;
      assert regs[..4] == w[..4] && regs[4..9] == w[4..9] && regs[9..] == w[9..];
      assert regs[..] == regs[..4] + regs[4..9] + regs[9..];
      assert w == w[..4] + w[4..9] + w[9..];
      r := r.(rax := 0);  // xorq %rax, %rax
    }

    /** The second half, with rsi at the record. */
    method LoadRegisters(cst: co_swap_t)
      requires cst.regs.Length == NumRegs && r.rax == 0
      modifies this
      ensures r == Entered(cst.regs[..])
      ensures mem == old(mem)[cst.regs[kRSP] := cst.regs[kRETAddr]]
    {
      var regs := cst.regs;
      r := r.(rbp := regs[6]);
      r := r.(rsp := regs[13]);
      r := r.(r15 := regs[0]);
      r := r.(r14 := regs[1]);
      r := r.(r13 := regs[2]);
      r := r.(r12 := regs[3]);
      r := r.(r9 := regs[4]);
      r := r.(r8 := regs[5]);
      r := r.(rdi := regs[7]);
      r := r.(rdx := regs[10]);
      r := r.(rcx := regs[11]);
      r := r.(rbx := regs[12]);
      r := r.(rsp := r.rsp + 8);  // leaq 8(%rsp), %rsp
      r := r.(rsp := r.rsp - 8);  // pushq 72(%rsi)
      mem := mem[r.rsp := regs[9]];
      r := r.(rsi := regs[8]);  // movq 64(%rsi), %rsi
      r := r.(rip := At(mem, r.rsp));  // ret
      r := r.(rsp := r.rsp + 8);
    }

    /** coctx_swap. */
    method coctx_swap(from: co_swap_t, into: co_swap_t)
      requires from.regs.Length == NumRegs && into.regs.Length == NumRegs && (from != into ==> from.regs != into.regs)
      modifies this, from.regs
      ensures from.regs[..] == old(Saved(r, At(mem, r.rsp)))
      ensures into != from ==> into.regs[..] == old(into.regs[..])
      ensures r == Entered(into.regs[..]) && mem == old(mem)[into.regs[kRSP] := into.regs[kRETAddr]]
    {
      SaveRegisters(from);
      LoadRegisters(into);
    }

    /** co_swap_make. */
    method co_swap_make(cst: co_swap_t, pfn: nat, s: nat, s1: nat)
      requires cst.regs.Length == NumRegs && cst.ss_sp + cst.ss_size >= 8
      modifies cst.regs, this`mem
      ensures var slot := EntrySlot(cst.ss_sp, cst.ss_size);
              cst.regs[..] == Made(slot, pfn, s, s1) && mem == old(mem)[slot := pfn]
    {
      var sp := cst.ss_sp + cst.ss_size - 8;
      sp := sp - sp % 16;       // sp & -16LL
      var regs := cst.regs;
      forall i | 0 <= i < regs.Length {
        regs[i] := 0;
      }
      mem := mem[sp := pfn];
      regs[kRSP] := sp;
      regs[kRETAddr] := pfn;
      regs[kRDI] := s;
      regs[kRSI] := s1;
    }
  }
}
