/** Where a coroutine goes on when it gets control: coctx_swap returns to what is on the stack at the
    saved stack pointer (coctx_swap.S:61-65), so that word must be there, whatever other coroutines
    did to the buffer meanwhile. */
module ReturnTheorems {
  import opened Options
  import opened SharedStack
  import opened CoroutineCalls
  import opened PrivateStacks
  import opened StackTheorems
  import opened RestoreTheorems

  /** The buffer of c holds the 8 bytes ret at offset rsp. */
  ghost predicate ReturnsTo<C, S>(m: Machine<C, S>, c: C, rsp: nat, ret: seq<Byte>) {
    && c in m.cos && m.cos[c].Csm in m.stacks && |ret| == 8 && rsp + 8 <= |StackOf(m, c).buffer|
    && forall i :: 0 <= i < 8 ==> StackOf(m, c).buffer[rsp + i] == ret[i]
  }

  // ---------- one switch ----------

  lemma RestoreSpares<C, S>(m: Machine<C, S>, c: C, rsp: nat, ret: seq<Byte>)
    requires MustRestore(m) ==>
      && m.using_Co == Some(c) && c in m.cos && CoShape(m, c) && IsSaved(m, c) && rsp + 8 <= m.cos[c].ESP
    requires ReturnsTo(m, c, rsp, ret)
    ensures ReturnsTo(Restore(m), c, rsp, ret)
  {
  }

  lemma JumpPushes<C, S>(m: Machine<C, S>, c: C)
    requires Shape(m) && c in m.cos
    ensures CoShape(m, c) && ReturnsTo(Jump(m, c), c, m.cos[c].rsp, m.cos[c].ret)
  {
    assert CoShape(m, c);
    hide Shape;
  }

  /** Whoever gets control finds the return address of its saved context at its saved stack pointer. */
  lemma SwapReturns<C, S>(m: Machine<C, S>, pending: C, current: C, p: Point, first: bool)
    requires AboutToSwap(m, pending, current, p, first)
    ensures var r := SwapCo(m, pending, current, p, first);
            pending in r.cos && ReturnsTo(r, pending, r.cos[pending].rsp, r.cos[pending].ret)
  {
    assert CoReady(m, pending, current, first, pending);
    CanSwapNames(m, pending, current, p, first);
    CallNames(m);
    OccupiedSwaps(m, pending, current, p, first, pending);
    SwapShape(m, pending, current, p);
    hide Occupy, SwitchOut, Shape, Jump, Restore, MustRestore, CanSwap, Exclusive, ReturnsTo;
    var m2 := Occupy(SwitchOut(m, current, p), pending);
    JumpPushes(m2, pending);
    JumpKeeps(m2, pending, pending);
    if !first {
      RestoreFits(m, pending, current, p);
      RestoreSpares(Jump(m2, pending), pending, m2.cos[pending].rsp, m2.cos[pending].ret);
      RestoreKeeps(Jump(m2, pending), pending);
    }
  }

  // ---------- one step ----------

  /** The saved context of c after a step: where it stops, if it stops; the entry function at the top of
      its stack, if it is entered for the first time; otherwise what it was. */
  ghost predicate SavesContext<C, S>(m: Machine<C, S>, r: Machine<C, S>, a: Action<C>, c: C) {
    && m.call != [] && c in m.cos && m.cos[c].Csm in m.stacks && c in r.cos
    && (if a.Resume? && c == a.co && !m.cos[c].ISstart then
          r.cos[c].rsp == StackOf(m, c).top && r.cos[c].ret == m.pfn
        else if c == Running(m) && !a.Write? then
          r.cos[c].rsp == GivesUp(a).value.rsp && r.cos[c].ret == GivesUp(a).value.ret
        else
          r.cos[c].rsp == m.cos[c].rsp && r.cos[c].ret == m.cos[c].ret)
  }

  lemma SwapSaves<C, S>(m: Machine<C, S>, pending: C, current: C, p: Point, first: bool, c: C)
    requires AboutToSwap(m, pending, current, p, first) && c in m.cos
    ensures var r := SwapCo(m, pending, current, p, first);
            && c in r.cos
            && r.cos[c].rsp == (if c == current then p.rsp else m.cos[c].rsp)
            && r.cos[c].ret == (if c == current then p.ret else m.cos[c].ret)
  {
    SwapCoSwaps(m, pending, current, p, first, c);
    hide SwapCo, Shape, Exclusive, CanSwap;
  }

  lemma MadeContext<C, S>(m: Machine<C, S>, co: C, c: C)
    requires Shape(m) && co in m.cos && c in m.cos && CoShape(m, co) && CoShape(m, c)
    ensures var r := BeforeResume(m, co);
            c in r.cos
            && r.cos[c].rsp == (if c == co && !m.cos[c].ISstart then StackOf(m, c).top else m.cos[c].rsp)
            && r.cos[c].ret == (if c == co && !m.cos[c].ISstart then m.pfn else m.cos[c].ret)
  {
    hide Shape;
  }

  lemma ResumeSaves<C, S>(m: Machine<C, S>, co: C, p: Point, c: C)
    requires Enabled(m, Resume(co, p)) && c in m.cos
    ensures SavesContext(m, Step(m, Resume(co, p)), Resume(co, p), c)
  {
    EnabledNames(m, Resume(co, p));
    ShapeOf(m, c);
    RunningStarted(m);
    hide SwapCo, Shape, Exclusive, BeforeResume, CanSwap, Enabled, MachineInv, AboutToSwap;
    ResumeReady(m, co, p);
    BeforeResumeKeeps(m, co, c);
    MadeContext(m, co, c);
    SwapSaves(BeforeResume(m, co), co, Running(m), p, !m.cos[co].ISstart, c);
  }

  lemma YieldSaves<C, S>(m: Machine<C, S>, p: Point, c: C)
    requires Enabled(m, Yield(p)) && c in m.cos
    ensures SavesContext(m, Step(m, Yield(p)), Yield(p), c)
  {
    EnabledNames(m, Yield(p));
    ShapeOf(m, c);
    hide SwapCo, Shape, Exclusive, CanSwap, Enabled, MachineInv, AboutToSwap;
    YieldReady(m, p);
    SwapSaves(Popped(m), m.call[|m.call| - 2], Running(m), p, false, c);
  }

  lemma StepSaves<C, S>(m: Machine<C, S>, a: Action<C>, c: C)
    requires Enabled(m, a) && c in m.cos
    ensures SavesContext(m, Step(m, a), a, c)
  {
    EnabledNames(m, a);
    ShapeOf(m, c);
    hide Step, Shape, Enabled, MachineInv;
    match a
    case Write(at, b) => StepFrame(m, a, c);
    case Resume(co, p) => ResumeSaves(m, co, p, c);
    case Yield(p) => YieldSaves(m, p, c);
    case Finish(p) =>
      FinishIsYield(m, p);
      YieldSaves(Ended(m), p, c);
  }

  /** Whoever runs after a switch. */
  lemma StepReturns<C, S>(m: Machine<C, S>, a: Action<C>)
    requires Enabled(m, a) && !a.Write?
    ensures var r := Step(m, a);
            && r.call != [] && Running(r) in r.cos
            && ReturnsTo(r, Running(r), r.cos[Running(r)].rsp, r.cos[Running(r)].ret)
  {
    EnabledNames(m, a);
    StepFrame(m, a, Running(m));
    hide SwapCo, Shape, Exclusive, BeforeResume, CanSwap, Enabled, MachineInv, AboutToSwap, ReturnsTo;
    match a
    case Resume(co, p) =>
      ResumeReady(m, co, p);
      SwapReturns(BeforeResume(m, co), co, Running(m), p, !m.cos[co].ISstart);
    case Yield(p) =>
      YieldReady(m, p);
      SwapReturns(Popped(m), m.call[|m.call| - 2], Running(m), p, false);
    case Finish(p) =>
      FinishReady(m, p);
      YieldReady(Ended(m), p);
      SwapReturns(Popped(Ended(m)), m.call[|m.call| - 2], Running(m), p, false);
  }

  // ---------- runs ----------

  /** A coroutine that is entered for the first time starts at the entry function, whose address is in
      the top slot of its stack. */
  lemma EntersAtTop<C, S>(s: State<C, S>, co: C, p: Point)
    requires Inv(s) && Allowed(s.m, Resume(co, p)) && !s.m.cos[co].ISstart
    ensures CoShape(s.m, co)
    ensures var r := Next(s, Resume(co, p)).m;
            IsRunning(r, co) && ReturnsTo(r, co, StackOf(s.m, co).top, s.m.pfn)
  {
    TakeStep(s, Resume(co, p));
    EnabledNames(s.m, Resume(co, p));
    hide Inv, Enabled, Allowed, Step, Next, MachineInv, ReturnsTo;
    StepSaves(s.m, Resume(co, p), co);
    StepReturns(s.m, Resume(co, p));
    StepFrame(s.m, Resume(co, p), co);
  }

  /** While a coroutine is away its saved context stays. */
  lemma StaysSaved<C, S>(s: State<C, S>, a: Action<C>, c: C)
    requires Inv(s) && Allowed(s.m, a) && s.m.call != [] && c in s.m.cos && Started(s.m, c) && !IsRunning(s.m, c)
    ensures var t := Next(s, a).m;
            && t.call != [] && c in t.cos && Started(t, c)
            && t.cos[c].rsp == s.m.cos[c].rsp && t.cos[c].ret == s.m.cos[c].ret && t.cos[c].ESP == s.m.cos[c].ESP
  {
    TakeStep(s, a);
    EnabledNames(s.m, a);
    hide Inv, Enabled, Allowed, Step, Next, MachineInv, Shape;
    StepSaves(s.m, a, c);
    StepMain(s.m, a, c);
    StepFrame(s.m, a, c);
  }

  lemma {:induction false} ReturnsWhenBack<C, S>(s: State<C, S>, acts: seq<Action<C>>, c: C)
    requires Inv(s) && Possible(s, acts) && acts != [] && Absent(s, acts, c) && IsRunning(After(s, acts).m, c)
    requires c in s.m.cos && s.m.call != [] && Started(s.m, c)
    ensures ReturnsTo(After(s, acts).m, c, s.m.cos[c].rsp, s.m.cos[c].ret)
    ensures c in After(s, acts).m.cos
    ensures After(s, acts).m.cos[c].rsp == s.m.cos[c].rsp && After(s, acts).m.cos[c].ESP == s.m.cos[c].ESP
    decreases |acts|
  {
    TakeStep(s, acts[0]);
    EnabledNames(s.m, acts[0]);
    hide Inv, Enabled, Allowed, Step, Next, MachineInv, ReturnsTo;
    StaysSaved(s, acts[0], c);
    hide Started;
    var t := Next(s, acts[0]);
    if acts[1..] == [] {
      WriteKeepsRunning(s.m, acts[0], c);
      StepReturns(s.m, acts[0]);
    } else {
      ReturnsWhenBack(t, acts[1..], c);
    }
  }

  /** A coroutine that stops at p goes on at p: when it regains control, after whatever run, the 8 bytes at
      its stack pointer are the return address with which it stopped, though the others may have stored
      over them while they had the buffer. */
  lemma GoesOnWhereItStopped<C, S>(s: State<C, S>, acts: seq<Action<C>>, c: C)
    requires Inv(s) && Possible(s, acts) && acts != [] && !acts[0].Write? && IsRunning(s.m, c)
    requires Absent(Next(s, acts[0]), acts[1..], c) && IsRunning(After(s, acts).m, c)
    ensures var p := GivesUp(acts[0]).value;
            && ReturnsTo(After(s, acts).m, c, p.rsp, p.ret)
            && c in After(s, acts).m.cos && After(s, acts).m.cos[c].rsp == p.rsp && After(s, acts).m.cos[c].ESP == p.ESP
  {
    StopsAt(s, acts[0], c);
    hide Inv, Allowed, Next, ReturnsTo, Started;
    var t := Next(s, acts[0]);
    TakeStep(s, acts[0]);
    if acts[1..] == [] {
      hide Step, Enabled;
      StepReturns(s.m, acts[0]);
    } else {
      ReturnsWhenBack(t, acts[1..], c);
    }
  }

  lemma StopsAt<C, S>(s: State<C, S>, a: Action<C>, c: C)
    requires Inv(s) && Allowed(s.m, a) && !a.Write? && IsRunning(s.m, c)
    ensures var p, t := GivesUp(a).value, Next(s, a);
            && t.m.call != [] && c in t.m.cos && Started(t.m, c)
            && t.m.cos[c].rsp == p.rsp && t.m.cos[c].ret == p.ret && t.m.cos[c].ESP == p.ESP
  {
    RunningStarted(s.m);
    TakeStep(s, a);
    EnabledNames(s.m, a);
    hide Inv, Enabled, Allowed, Step, Next, MachineInv, Shape;
    StepSaves(s.m, a, c);
    StepMain(s.m, a, c);
    StepFrame(s.m, a, c);
  }
}
