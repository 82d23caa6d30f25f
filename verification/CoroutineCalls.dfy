/** The calls that move control between coroutines (Co_Routine.cpp:585-624), and what every one of
    them keeps of the call stack, the occupants and the copies set aside. */
module CoroutineCalls {
  import opened Options
  import opened SharedStack

  /** What the running coroutine does next; p is where it is when it gives up control. */
  datatype Action<C> =
    | Write(at: nat, b: Byte)
    | Resume(co: C, p: Point)
    | Yield(p: Point)
    | Finish(p: Point)

  function Main<C, S>(m: Machine<C, S>): C
    requires m.call != []
  {
    m.call[0]
  }

  // ---------- the library calls ----------

  /** Co_resume (lines 614-624). */
  function CoResume<C(==), S>(m: Machine<C, S>, co: C, p: Point): Machine<C, S>
    requires Shape(m) && co in m.cos && CanSwap(BeforeResume(m, co), co, Running(m), p, !m.cos[co].ISstart)
  {
    SwapCo(BeforeResume(m, co), co, Running(m), p, !m.cos[co].ISstart)
  }

  function BeforeResume<C, S>(m: Machine<C, S>, co: C): Machine<C, S>
    requires Shape(m) && co in m.cos
  {
    var made := if m.cos[co].ISstart then m else Make(m, co);
    made.(call := made.call + [co])
  }

  /** Co_yeild (lines 589-598). */
  function CoYield<C(==), S>(m: Machine<C, S>, p: Point): Machine<C, S>
    requires Shape(m) && |m.call| > 1
    requires CanSwap(Popped(m), m.call[|m.call| - 2], Running(m), p, false)
  {
    SwapCo(Popped(m), m.call[|m.call| - 2], Running(m), p, false)
  }

  function Popped<C, S>(m: Machine<C, S>): Machine<C, S>
    requires |m.call| > 1
  {
    m.(call := m.call[..|m.call| - 1])
  }

  /** The end of Co_realRunningFun (lines 606-608), before it yields. */
  function Ended<C, S>(m: Machine<C, S>): Machine<C, S>
    requires Shape(m)
  {
    m.(cos := m.cos[Running(m) := m.cos[Running(m)].(IsEnd := true)])
  }

  /** A coroutine stores a byte on its own stack. */
  function Store<C, S>(m: Machine<C, S>, at: nat, b: Byte): Machine<C, S>
    requires Shape(m) && CoShape(m, Running(m)) && at < |StackOf(m, Running(m)).buffer|
  {
    SetBuffer(m, m.cos[Running(m)].Csm, Put(StackOf(m, Running(m)).buffer, at, [b]))
  }

  // ---------- the invariant ----------

  ghost predicate Started<C, S>(m: Machine<C, S>, c: C)
    requires c in m.cos && m.call != []
  {
    m.cos[c].ISstart || c == Main(m)
  }

  /** A coroutine that is not running is parked below the first return address of its stack. */
  ghost predicate Parked<C, S>(m: Machine<C, S>, c: C)
    requires c in m.cos && m.cos[c].Csm in m.stacks
  {
    m.cos[c].rsp + Word <= m.cos[c].ESP <= StackOf(m, c).top
  }

  ghost predicate CoInv<C, S>(m: Machine<C, S>, c: C)
    requires Shape(m) && c in m.cos && m.cos[c].Csm in m.stacks
  {
    && (c in m.call ==> Started(m, c))
    && (Started(m, c) && c != Running(m) ==> Parked(m, c))
    && (m.cos[c].IsShareStack && m.cos[c].ISstart ==> StackOf(m, c).current_co.Some?)
    && (m.cos[c].IsShareStack && m.cos[c].ISstart && !Occupies(m, c) ==> IsSaved(m, c))
    && (m.cos[c].IsShareStack && c == Running(m) ==> Occupies(m, c))
  }

  ghost predicate MachineInv<C, S>(m: Machine<C, S>) {
    && Shape(m) && Exclusive(m) && |m.call| <= MaximumNumberOfCoroutinesAllowed
    && !m.cos[Main(m)].IsShareStack
    && (forall c :: c in m.cos ==> CoShape(m, c) && CoInv(m, c))
  }

  /** The state right before co_swap_Co: the call stack already names the one switched to. */
  ghost predicate AboutToSwap<C, S>(m: Machine<C, S>, pending: C, current: C, p: Point, first: bool) {
    && CanSwap(m, pending, current, p, first) && Exclusive(m) && Running(m) == pending
    && |m.call| <= MaximumNumberOfCoroutinesAllowed
    && !m.cos[Main(m)].IsShareStack
    && (forall c :: c in m.cos ==> CoShape(m, c) && CoReady(m, pending, current, first, c))
  }

  ghost predicate CoReady<C, S>(m: Machine<C, S>, pending: C, current: C, first: bool, c: C)
    requires m.call != [] && c in m.cos && m.cos[c].Csm in m.stacks
  {
    && (c in m.call ==> Started(m, c))
    && (Started(m, c) && c != current && !(first && c == pending) ==> Parked(m, c))
    && (m.cos[c].IsShareStack && m.cos[c].ISstart && !(first && c == pending) ==>
          StackOf(m, c).current_co.Some? && (Occupies(m, c) || IsSaved(m, c)))
  }

  /** What co_swap_Co leaves of the parts a coroutine's invariant talks about. */
  ghost predicate SwappedStack<C, S>(m: Machine<C, S>, r: Machine<C, S>, pending: C, c: C)
    requires c in m.cos && c in r.cos && r.cos[c].Csm in r.stacks
  {
    && m.cos[c].Csm in m.stacks && pending in m.cos
    && (if m.cos[pending].IsShareStack && m.cos[c].Csm == m.cos[pending].Csm
        then StackOf(r, c).current_co == Some(pending)
        else StackOf(r, c).current_co == StackOf(m, c).current_co)
    && (if m.cos[pending].IsShareStack && Occupies(m, c) && m.cos[c].Csm == m.cos[pending].Csm && c != pending
        then IsSaved(r, c)
        else r.cos[c].Used_Stack == m.cos[c].Used_Stack)
  }

  lemma OccupySwaps<C, S>(m: Machine<C, S>, pending: C, c: C)
    requires Shape(m) && pending in m.cos && c in m.cos && (m.cos[pending].IsShareStack ==> m.cos[pending].ISstart)
    ensures var r := Occupy(m, pending);
            && CoShape(m, c) && CoShape(r, c) && SwappedStack(m, r, pending, c)
            && r.cos[c].ESP == m.cos[c].ESP && r.cos[c].rsp == m.cos[c].rsp && r.cos[c].ret == m.cos[c].ret
  {
    OccupyShape(m, pending);
    assert CoShape(m, c) && CoShape(m, pending);
    assert CoShape(Occupy(m, pending), c);
    assert StackShape(m, m.cos[pending].Csm);
  }

  /** Jump and Restore only write bytes. */
  ghost predicate SameButBytes<C, S>(m: Machine<C, S>, r: Machine<C, S>) {
    && r.cos == m.cos && r.call == m.call && r.stacks.Keys == m.stacks.Keys && r.pfn == m.pfn
    && (forall s :: s in m.stacks ==>
          |r.stacks[s].buffer| == |m.stacks[s].buffer| && r.stacks[s].top == m.stacks[s].top
          && r.stacks[s].current_co == m.stacks[s].current_co)
  }

  lemma JumpKeeps<C, S>(m: Machine<C, S>, pending: C, c: C)
    requires Shape(m) && pending in m.cos && c in m.cos
    ensures CoShape(m, pending) && SameButBytes(m, Jump(m, pending)) && CoShape(m, c) && CoShape(Jump(m, pending), c)
  {
    assert CoShape(m, pending) && CoShape(m, c);
  }

  lemma RestoreKeeps<C, S>(m: Machine<C, S>, c: C)
    requires MustRestore(m) ==>
      && m.using_Co.value in m.cos && CoShape(m, m.using_Co.value) && IsSaved(m, m.using_Co.value)
    requires Shape(m) && c in m.cos
    ensures SameButBytes(m, Restore(m)) && CoShape(m, c) && CoShape(Restore(m), c) && Shape(Restore(m))
  {
    assert CoShape(m, c);
    var r := Restore(m);
    forall d | d in r.cos ensures CoShape(r, d) {
      assert CoShape(m, d);
    }
    forall s | s in r.stacks ensures StackShape(r, s) {
      assert StackShape(m, s);
    }
  }

  ghost predicate Swapped<C, S>(m: Machine<C, S>, r: Machine<C, S>, pending: C, current: C, p: Point, c: C)
    requires c in m.cos && c in r.cos && r.cos[c].Csm in r.stacks
  {
    && SwappedStack(m, r, pending, c)
    && r.cos[c].ESP == (if c == current then p.ESP else m.cos[c].ESP)
    && r.cos[c].rsp == (if c == current then p.rsp else m.cos[c].rsp)
    && r.cos[c].ret == (if c == current then p.ret else m.cos[c].ret)
  }

  lemma SwitchOutKeeps<C, S>(m: Machine<C, S>, current: C, p: Point, c: C)
    requires Shape(m) && current in m.cos && Placed(m, current, p) && c in m.cos
    ensures var r := SwitchOut(m, current, p);
            && SameKinds(m, r) && r.stacks == m.stacks && CoShape(m, c) && CoShape(r, c)
            && r.cos[c] == if c == current then m.cos[c].(ESP := p.ESP, rsp := p.rsp, ret := p.ret) else m.cos[c]
  {
    assert CoShape(m, c) && CoShape(SwitchOut(m, current, p), c);
  }

  lemma OccupiedSwaps<C, S>(m: Machine<C, S>, pending: C, current: C, p: Point, first: bool, c: C)
    requires CanSwap(m, pending, current, p, first) && c in m.cos
    ensures var r := Occupy(SwitchOut(m, current, p), pending);
            SameKinds(m, r) && CoShape(m, c) && CoShape(r, c) && Swapped(m, r, pending, current, p, c) && Shape(r)
  {
    hide Occupy, SwitchOut, Shape, SameKinds;
    var m1 := SwitchOut(m, current, p);
    SwitchOutKeeps(m, current, p, c);
    SwitchOutKeeps(m, current, p, pending);
    OccupyShape(m1, pending);
    OccupySwaps(m1, pending, c);
    OccupyKinds(m1, pending);
    SameKindsTrans(m, m1, Occupy(m1, pending));
  }

  lemma SameKindsTrans<C, S>(m: Machine<C, S>, m1: Machine<C, S>, r: Machine<C, S>)
    requires SameKinds(m, m1) && SameKinds(m1, r)
    ensures SameKinds(m, r)
  {
  }

  lemma JumpsOn<C, S>(m: Machine<C, S>, pending: C, current: C, p: Point, first: bool, c: C)
    requires CanSwap(m, pending, current, p, first) && c in m.cos
    requires var m2 := Occupy(SwitchOut(m, current, p), pending); Shape(m2) && c in m2.cos && pending in m2.cos
    ensures var m2 := Occupy(SwitchOut(m, current, p), pending);
            var r := SwapCo(m, pending, current, p, first);
            c in r.cos && SameButBytes(m2, r) && CoShape(r, c) && Shape(r)
  {
    hide Occupy, Shape, Jump, Restore, MustRestore, CanSwap, IsSaved;
    CanSwapNames(m, pending, current, p, first);
    SwapShape(m, pending, current, p);
    var m2 := Occupy(SwitchOut(m, current, p), pending);
    JumpKeeps(m2, pending, c);
    if !first {
      RestoreFits(m, pending, current, p);
      RestoreKeeps(Jump(m2, pending), c);
    }
  }

  lemma SwapCoSwaps<C, S>(m: Machine<C, S>, pending: C, current: C, p: Point, first: bool, c: C)
    requires CanSwap(m, pending, current, p, first) && Exclusive(m) && c in m.cos
    ensures var r := SwapCo(m, pending, current, p, first);
            SameKinds(m, r) && CoShape(m, c) && CoShape(r, c) && Swapped(m, r, pending, current, p, c) && Shape(r)
  {
    hide Occupy, SwitchOut, Shape, Exclusive, SwapCo, CanSwap;
    OccupiedSwaps(m, pending, current, p, first, c);
    OccupiedSwaps(m, pending, current, p, first, pending);
    JumpsOn(m, pending, current, p, first, c);
  }

  lemma CoInvAfter<C, S>(m: Machine<C, S>, r: Machine<C, S>, pending: C, current: C, p: Point, first: bool, c: C)
    requires AboutToSwap(m, pending, current, p, first) && c in m.cos && c in r.cos
    requires Shape(r) && SameKinds(m, r) && CoShape(m, c) && CoShape(r, c)
    requires Swapped(m, r, pending, current, p, c)
    ensures CoInv(r, c)
  {
    CanSwapNames(m, pending, current, p, first);
    CallNames(m);
    hide Shape, Exclusive;
    assert CoReady(m, pending, current, first, c);
  }

  lemma SwapCoInv<C, S>(m: Machine<C, S>, pending: C, current: C, p: Point, first: bool)
    requires AboutToSwap(m, pending, current, p, first)
    ensures MachineInv(SwapCo(m, pending, current, p, first))
  {
    CanSwapNames(m, pending, current, p, first);
    CallNames(m);
    hide Shape, Exclusive, SwapCo, CanSwap, CoInv, Swapped, CoReady;
    var r := SwapCo(m, pending, current, p, first);
    SwapCoSwaps(m, pending, current, p, first, pending);
    ExclusiveKept(m, r);
    forall c | c in r.cos ensures CoShape(r, c) && CoInv(r, c) {
      SwapCoSwaps(m, pending, current, p, first, c);
      CoInvAfter(m, r, pending, current, p, first, c);
    }
  }

  lemma CanSwapNames<C, S>(m: Machine<C, S>, pending: C, current: C, p: Point, first: bool)
    requires CanSwap(m, pending, current, p, first)
    ensures Shape(m) && pending in m.cos && current in m.cos && Placed(m, current, p)
    ensures m.cos[pending].IsShareStack ==> m.cos[pending].ISstart
  {
  }

  lemma CallNames<C, S>(m: Machine<C, S>)
    requires Shape(m)
    ensures m.call != [] && m.call[0] in m.cos && Running(m) in m.cos
  {
  }

  // ---------- the steps ----------

  /** What a coroutine may do next: store on its own stack, resume a coroutine that has not ended while
      the call stack has room, or give control back to one that has not ended. */
  ghost predicate Allowed<C, S>(m: Machine<C, S>, a: Action<C>) {
    && m.call != [] && Running(m) in m.cos && m.cos[Running(m)].Csm in m.stacks
    && match a
       case Write(at, b) => at < |StackOf(m, Running(m)).buffer|
       case Resume(co, p) =>
         && co in m.cos && co != Main(m) && !m.cos[co].IsEnd && |m.call| < MaximumNumberOfCoroutinesAllowed
         && Placed(m, Running(m), p)
       case Yield(p) =>
         && |m.call| > 1 && m.call[|m.call| - 2] in m.cos && !m.cos[m.call[|m.call| - 2]].IsEnd
         && Placed(m, Running(m), p)
       case Finish(p) =>
         && |m.call| > 1 && m.call[|m.call| - 2] in m.cos && !m.cos[m.call[|m.call| - 2]].IsEnd
         && m.call[|m.call| - 2] != Running(m) && Placed(m, Running(m), p)
  }

  ghost predicate Enabled<C, S>(m: Machine<C, S>, a: Action<C>) {
    MachineInv(m) && Allowed(m, a)
  }

  lemma MakeKeeps<C, S>(m: Machine<C, S>, co: C, c: C)
    requires MachineInv(m) && co in m.cos && c in m.cos && !m.cos[co].ISstart && co != Main(m)
    ensures var r := Make(m, co);
            && r.cos.Keys == m.cos.Keys && r.call == m.call && r.stacks.Keys == m.stacks.Keys
            && CoShape(m, c) && CoShape(r, c) && !Occupies(r, co)
            && StackOf(r, c).current_co == StackOf(m, c).current_co && StackOf(r, c).top == StackOf(m, c).top
            && |StackOf(r, c).buffer| == |StackOf(m, c).buffer|
            && (c != co ==> r.cos[c] == m.cos[c])
            && r.cos[co].ISstart && r.cos[co].Csm == m.cos[co].Csm && r.cos[co].IsShareStack == m.cos[co].IsShareStack
            && Shape(r)
  {
    assert CoShape(m, c) && CoShape(m, co) && StackShape(m, m.cos[co].Csm);
    MakeShape(m, co);
    hide Shape, Exclusive;
  }

  lemma MakeShape<C, S>(m: Machine<C, S>, co: C)
    requires Shape(m) && co in m.cos
    ensures Shape(Make(m, co))
  {
    var r := Make(m, co);
    assert CoShape(m, co) && StackShape(m, m.cos[co].Csm);
    forall d | d in r.cos ensures CoShape(r, d) {
      assert CoShape(m, d);
    }
    forall s | s in r.stacks ensures StackShape(r, s) {
      assert StackShape(m, s);
    }
  }

  lemma PushShape<C, S>(m: Machine<C, S>, co: C)
    requires Shape(m) && co in m.cos
    ensures Shape(m.(call := m.call + [co]))
  {
    var r := m.(call := m.call + [co]);
    forall d | d in r.cos ensures CoShape(r, d) {
      assert CoShape(m, d);
    }
    forall s | s in r.stacks ensures StackShape(r, s) {
      assert StackShape(m, s);
    }
  }

  lemma EnabledNames<C, S>(m: Machine<C, S>, a: Action<C>)
    requires Enabled(m, a)
    ensures MachineInv(m) && Shape(m) && m.call != [] && Running(m) in m.cos && CoShape(m, Running(m))
    ensures a.Resume? ==> a.co in m.cos && CoShape(m, a.co) && a.co != Main(m)
    ensures a.Yield? || a.Finish? ==> |m.call| > 1 && m.call[|m.call| - 2] in m.cos
  {
    assert CoShape(m, Running(m));
    assert a.Resume? ==> CoShape(m, a.co);
  }

  lemma StackShapes<C, S>(m: Machine<C, S>, c: C)
    requires Shape(m) && c in m.cos
    ensures CoShape(m, c) && StackShape(m, m.cos[c].Csm) && |m.pfn| == Word
  {
    assert CoShape(m, c);
  }

  lemma RoomToResume<C, S>(m: Machine<C, S>, co: C, p: Point)
    requires Enabled(m, Resume(co, p))
    ensures |m.call| < MaximumNumberOfCoroutinesAllowed
  {
  }

  lemma AboutNames<C, S>(m: Machine<C, S>, pending: C, current: C, p: Point, first: bool)
    requires AboutToSwap(m, pending, current, p, first)
    ensures CanSwap(m, pending, current, p, first)
  {
  }

  lemma BeforeResumeKeeps<C, S>(m: Machine<C, S>, co: C, c: C)
    requires MachineInv(m) && co in m.cos && c in m.cos && co != Main(m)
    ensures var r := BeforeResume(m, co);
            && r.cos.Keys == m.cos.Keys && r.call == m.call + [co] && r.stacks.Keys == m.stacks.Keys
            && CoShape(m, c) && CoShape(r, c) && Shape(r) && (!m.cos[co].ISstart ==> !Occupies(r, co))
            && StackOf(r, c).current_co == StackOf(m, c).current_co && StackOf(r, c).top == StackOf(m, c).top
            && |StackOf(r, c).buffer| == |StackOf(m, c).buffer|
            && (c != co || m.cos[co].ISstart ==> r.cos[c] == m.cos[c])
            && r.cos[co].ISstart && r.cos[co].Csm == m.cos[co].Csm && r.cos[co].IsShareStack == m.cos[co].IsShareStack
  {
    assert CoShape(m, c) && CoShape(m, co);
    if m.cos[co].ISstart {
      PushShape(m, co);
    } else {
      MakeKeeps(m, co, c);
      PushShape(Make(m, co), co);
    }
  }

  lemma CoReadyAfter<C, S>(m: Machine<C, S>, co: C, p: Point, c: C)
    requires Enabled(m, Resume(co, p)) && c in m.cos
    ensures var b := BeforeResume(m, co);
            c in b.cos && CoShape(b, c) && b.call != [] && CoReady(b, co, Running(m), !m.cos[co].ISstart, c)
  {
    hide BeforeResume, Shape, Exclusive;
    assert CoShape(m, c) && CoInv(m, c) && MachineInv(m) && co in m.cos;
    CallNames(m);
    BeforeResumeKeeps(m, co, c);
    hide Enabled, MachineInv;
    assert c in BeforeResume(m, co).call <==> c in m.call || c == co;
  }

  lemma ResumeCanSwap<C, S>(m: Machine<C, S>, co: C, p: Point)
    requires Enabled(m, Resume(co, p))
    ensures CanSwap(BeforeResume(m, co), co, Running(m), p, !m.cos[co].ISstart) && Exclusive(BeforeResume(m, co))
  {
    var r := Running(m);
    CallNames(m);
    BeforeResumeKeeps(m, co, r);
    BeforeResumeKeeps(m, co, co);
    assert CoShape(m, r) && CoInv(m, r) && CoShape(m, co) && CoInv(m, co);
    assert Exclusive(BeforeResume(m, co)) by {
      forall c | c in m.cos
        ensures BeforeResume(m, co).cos[c].Csm == m.cos[c].Csm
             && BeforeResume(m, co).cos[c].IsShareStack == m.cos[c].IsShareStack
      {
        BeforeResumeKeeps(m, co, c);
      }
      hide BeforeResume;
    }
    hide BeforeResume, Shape, Exclusive;
  }

  lemma ResumeReady<C, S>(m: Machine<C, S>, co: C, p: Point)
    requires Enabled(m, Resume(co, p))
    ensures AboutToSwap(BeforeResume(m, co), co, Running(m), p, !m.cos[co].ISstart)
  {
    ResumeCanSwap(m, co, p);
    CallNames(m);
    BeforeResumeKeeps(m, co, Main(m));
    hide BeforeResume, Shape, Exclusive, CanSwap;
    var b := BeforeResume(m, co);
    forall c | c in b.cos ensures CoShape(b, c) && CoReady(b, co, Running(m), !m.cos[co].ISstart, c) {
      CoReadyAfter(m, co, p, c);
    }
  }

  lemma PoppedKeeps<C, S>(m: Machine<C, S>, c: C)
    requires MachineInv(m) && |m.call| > 1 && c in m.cos
    ensures var r := Popped(m);
            Shape(r) && Exclusive(r) && CoShape(m, c) && CoShape(r, c) && (c in r.call ==> c in m.call)
  {
    assert CoShape(m, c);
    var r := Popped(m);
    forall d | d in r.cos ensures CoShape(r, d) {
      assert CoShape(m, d);
    }
    forall s | s in r.stacks ensures StackShape(r, s) {
      assert StackShape(m, s);
    }
  }

  lemma CoReadyPopped<C, S>(m: Machine<C, S>, p: Point, c: C)
    requires Enabled(m, Yield(p)) && c in m.cos
    ensures var b := Popped(m);
            CoShape(b, c) && b.call != [] && CoReady(b, m.call[|m.call| - 2], Running(m), false, c)
  {
    PoppedKeeps(m, c);
    assert CoShape(m, c) && CoInv(m, c);
    hide Shape, Exclusive;
  }

  lemma YieldReady<C, S>(m: Machine<C, S>, p: Point)
    requires Enabled(m, Yield(p))
    ensures AboutToSwap(Popped(m), m.call[|m.call| - 2], Running(m), p, false)
  {
    CallNames(m);
    var pending := m.call[|m.call| - 2];
    assert pending in m.call && Running(m) in m.call;
    assert pending in m.cos && CoShape(m, Running(m)) && CoInv(m, Running(m)) && CoShape(m, pending) && CoInv(m, pending);
    PoppedKeeps(m, pending);
    var b := Popped(m);
    hide Shape, Exclusive;
    forall c | c in b.cos ensures CoShape(b, c) && CoReady(b, pending, Running(m), false, c) {
      CoReadyPopped(m, p, c);
    }
    assert CanSwap(b, pending, Running(m), p, false);
  }

  lemma EndedShape<C, S>(m: Machine<C, S>)
    requires Shape(m)
    ensures Shape(Ended(m))
  {
    var r := Ended(m);
    forall d | d in r.cos ensures CoShape(r, d) {
      assert CoShape(m, d);
    }
    forall s | s in r.stacks ensures StackShape(r, s) {
      assert StackShape(m, s);
    }
  }

  lemma EndedCo<C, S>(m: Machine<C, S>, c: C)
    requires Shape(m) && Shape(Ended(m)) && c in m.cos && CoShape(m, c) && CoInv(m, c)
    ensures c in Ended(m).cos && CoShape(Ended(m), c) && CoInv(Ended(m), c)
  {
    CallNames(m);
    hide Shape;
  }

  lemma EndedKeeps<C, S>(m: Machine<C, S>)
    requires MachineInv(m)
    ensures MachineInv(Ended(m))
  {
    CallNames(m);
    hide Shape, CoInv, CoShape;
    var r := Ended(m);
    EndedShape(m);
    forall c | c in r.cos ensures CoShape(r, c) && CoInv(r, c) {
      assert CoShape(m, c) && CoInv(m, c);
      EndedCo(m, c);
    }
  }

  lemma StoreKeeps<C, S>(m: Machine<C, S>, at: nat, b: Byte)
    requires Enabled(m, Write(at, b))
    ensures MachineInv(Store(m, at, b))
  {
    CallNames(m);
    var r := Store(m, at, b);
    assert CoShape(m, Running(m));
    assert Shape(r) by {
      forall d | d in r.cos ensures CoShape(r, d) {
        assert CoShape(m, d);
      }
      forall s | s in r.stacks ensures StackShape(r, s) {
        assert StackShape(m, s);
      }
    }
    hide Shape;
    forall c | c in r.cos ensures CoShape(r, c) && CoInv(r, c) {
      assert CoShape(m, c) && CoInv(m, c);
    }
  }

  lemma FinishReady<C, S>(m: Machine<C, S>, p: Point)
    requires Enabled(m, Finish(p))
    ensures Enabled(Ended(m), Yield(p))
  {
    EndedKeeps(m);
    CallNames(m);
    assert CoShape(m, Running(m)) && CoShape(Ended(m), Running(m));
  }

  /** One step of the running coroutine. */
  function Step<C(==), S>(m: Machine<C, S>, a: Action<C>): Machine<C, S>
    requires Enabled(m, a)
  {
    match a
    case Write(at, b) => Store(m, at, b)
    case Resume(co, p) =>
      ResumeReady(m, co, p);
      CoResume(m, co, p)
    case Yield(p) =>
      YieldReady(m, p);
      CoYield(m, p)
    case Finish(p) =>
      FinishReady(m, p);
      YieldReady(Ended(m), p);
      CoYield(Ended(m), p)
  }

  lemma FinishIsYield<C, S>(m: Machine<C, S>, p: Point)
    requires Enabled(m, Finish(p))
    ensures Enabled(Ended(m), Yield(p)) && Step(m, Finish(p)) == Step(Ended(m), Yield(p))
  {
    hide Shape, Exclusive, MachineInv, CoYield;
    FinishReady(m, p);
  }

  /** Every step keeps the invariant: only the occupant of a shared stack has live bytes in its buffer,
      and every other started coroutine of that stack holds a copy of stack_bp - ESP bytes. */
  lemma StepKeepsMachineInv<C, S>(m: Machine<C, S>, a: Action<C>)
    requires Enabled(m, a)
    ensures MachineInv(Step(m, a))
  {
    match a
    case Write(at, b) =>
      hide Shape, Exclusive, MachineInv;
      StoreKeeps(m, at, b);
    case Resume(co, p) => ResumeKeeps(m, co, p);
    case Yield(p) => YieldKeeps(m, p);
    case Finish(p) =>
      hide Shape, Exclusive, MachineInv, CoYield;
      FinishReady(m, p);
      YieldKeeps(Ended(m), p);
  }

  lemma ResumeKeeps<C, S>(m: Machine<C, S>, co: C, p: Point)
    requires Enabled(m, Resume(co, p))
    ensures MachineInv(Step(m, Resume(co, p)))
  {
    hide Shape, Exclusive, SwapCo, BeforeResume, MachineInv, Enabled;
    EnabledNames(m, Resume(co, p));
    ResumeReady(m, co, p);
    SwapCoInv(BeforeResume(m, co), co, Running(m), p, !m.cos[co].ISstart);
  }

  lemma YieldKeeps<C, S>(m: Machine<C, S>, p: Point)
    requires Enabled(m, Yield(p))
    ensures MachineInv(Step(m, Yield(p)))
  {
    hide Shape, Exclusive, SwapCo, MachineInv, Enabled;
    EnabledNames(m, Yield(p));
    YieldReady(m, p);
    SwapCoInv(Popped(m), m.call[|m.call| - 2], Running(m), p, false);
  }
}
