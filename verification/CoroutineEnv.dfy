/** Co_Rountinue_Env and the coroutines and stacks it names, updated in place (Co_Routine.cpp:493-624). */
module CoroutineEnv {
  import opened Options
  import opened SharedStack
  import opened CoroutineCalls
  import opened PrivateStacks
  import opened StackTheorems

  lemma OccupyIs<C, S>(m: Machine<C, S>, pending: C)
    requires Shape(m) && pending in m.cos && m.cos[pending].IsShareStack
    ensures CoShape(m, pending)
    ensures var s := m.cos[pending].Csm;
            var o := m.stacks[s].current_co;
            var r := Occupy(m, pending);
            && r.call == m.call && r.pfn == m.pfn && r.using_Co == Some(pending) && r.prev_Co == o
            && r.stacks == m.stacks[s := m.stacks[s].(current_co := Some(pending))]
            && (if o.Some? && o.value != pending
                then && o.value in m.cos && CoShape(m, o.value) && m.cos[o.value].Csm == s
                     && r.cos == m.cos[o.value := m.cos[o.value].(Used_Stack :=
                                         Some(m.stacks[s].buffer[m.cos[o.value].ESP..]))]
                else r.cos == m.cos)
  {
    assert CoShape(m, pending) && StackShape(m, m.cos[pending].Csm);
    if m.stacks[m.cos[pending].Csm].current_co.Some? {
      assert CoShape(m, m.stacks[m.cos[pending].Csm].current_co.value);
    }
    hide Shape;
  }

  /** The stack pointer and return address reach the saved context only at the jump; nothing reads
      them before. */
  function EspOut<C, S>(m: Machine<C, S>, current: C, ESP: nat): Machine<C, S>
    requires current in m.cos
  {
    m.(cos := m.cos[current := m.cos[current].(ESP := ESP)])
  }

  function RegsOut<C, S>(m: Machine<C, S>, current: C, rsp: nat, ret: seq<Byte>): Machine<C, S>
    requires current in m.cos
  {
    m.(cos := m.cos[current := m.cos[current].(rsp := rsp, ret := ret)])
  }

  lemma EspShape<C, S>(m: Machine<C, S>, current: C, p: Point)
    requires Shape(m) && current in m.cos && Placed(m, current, p)
    ensures Shape(EspOut(m, current, p.ESP))
  {
    var e := EspOut(m, current, p.ESP);
    forall d | d in e.cos ensures CoShape(e, d) {
      assert CoShape(m, d);
    }
    forall s | s in e.stacks ensures StackShape(e, s) {
      assert StackShape(m, s);
    }
  }

  lemma OutInSteps<C, S>(m: Machine<C, S>, current: C, p: Point)
    requires Shape(m) && current in m.cos && Placed(m, current, p)
    ensures SwitchOut(m, current, p) == RegsOut(EspOut(m, current, p.ESP), current, p.rsp, p.ret)
  {
    hide Shape;
    assert SwitchOut(m, current, p).cos == RegsOut(EspOut(m, current, p.ESP), current, p.rsp, p.ret).cos;
  }

  lemma UpdatesCommute<K, V>(m: map<K, V>, j: K, v: V, k: K, w: V)
    requires j != k
    ensures m[j := v][k := w] == m[k := w][j := v]
  {
  }

  lemma OccupyRegs<C, S>(m: Machine<C, S>, pending: C, current: C, rsp: nat, ret: seq<Byte>)
    requires pending in m.cos && current in m.cos && Shape(m) && Shape(RegsOut(m, current, rsp, ret))
    ensures current in Occupy(m, pending).cos
    ensures RegsOut(Occupy(m, pending), current, rsp, ret) == Occupy(RegsOut(m, current, rsp, ret), pending)
  {
    var o := RegsOut(m, current, rsp, ret);
    hide Shape, CoShape;
    if m.cos[pending].IsShareStack {
      OccupyIs(m, pending);
      OccupyIs(o, pending);
      hide Occupy;
      assert o.cos[pending].Csm == m.cos[pending].Csm;
      var occupant := StackOf(m, pending).current_co;
      if occupant.Some? && occupant.value != pending && occupant.value != current {
        var a, b := Occupy(m, pending).cos[occupant.value], o.cos[current];
        assert Occupy(m, pending).cos == m.cos[occupant.value := a] && o.cos == m.cos[current := b];
        UpdatesCommute(m.cos, current, b, occupant.value, a);
      }
      assert RegsOut(Occupy(m, pending), current, rsp, ret).cos == Occupy(o, pending).cos;
    }
  }

  lemma LateSave<C, S>(m: Machine<C, S>, pending: C, current: C, p: Point)
    requires Shape(m) && current in m.cos && pending in m.cos && Placed(m, current, p)
    ensures var e := EspOut(m, current, p.ESP);
            && Shape(e) && current in Occupy(e, pending).cos
            && RegsOut(Occupy(e, pending), current, p.rsp, p.ret) == Occupy(SwitchOut(m, current, p), pending)
  {
    EspShape(m, current, p);
    OutInSteps(m, current, p);
    OccupyRegs(EspOut(m, current, p.ESP), pending, current, p.rsp, p.ret);
  }

  class Co_Stack_Member {
    var current_co: Co_Entity?
    const buffer: array<Byte>
    const top: nat

    constructor (buffer: array<Byte>, top: nat)
      ensures this.buffer == buffer && this.top == top && current_co == null
    {
      this.buffer := buffer;
      this.top := top;
      current_co := null;
    }
  }

  class Co_Entity {
    const Csm: Co_Stack_Member
    const IsShareStack: bool
    var ISstart: bool
    var IsEnd: bool
    var ESP: nat
    var Used_Stack: Option<seq<Byte>> // filled once, when it is allocated
    var rsp: nat
    var ret: seq<Byte>

    constructor (Csm: Co_Stack_Member, IsShareStack: bool)
      ensures this.Csm == Csm && this.IsShareStack == IsShareStack && !ISstart && !IsEnd && Used_Stack == None
    {
      this.Csm := Csm;
      this.IsShareStack := IsShareStack;
      ISstart, IsEnd, ESP, Used_Stack, rsp := false, false, 0, None, 0;
      ret := seq(Word, _ => 0);
    }

    ghost function Value(): Co<Co_Stack_Member>
      reads this
    {
      Co(Csm, IsShareStack, ISstart, IsEnd, ESP, Used_Stack, rsp, ret)
    }
  }

  function Maybe(x: Co_Entity?): Option<Co_Entity> {
    if x == null then None else var c: Co_Entity := x; Some(c)
  }

  /** Coroutines and stacks as they are created: nobody has started, and every private stack has one owner. */
  ghost predicate Unused(main: Co_Entity, cos: set<Co_Entity>, stacks: set<Co_Stack_Member>, pfn: seq<Byte>)
    reads cos, stacks
  {
    && |pfn| == Word && !main.IsShareStack
    && (forall c :: c in cos ==>
          && c.Csm in stacks && !c.ISstart && |c.ret| == Word
          && c.rsp + Word <= c.Csm.buffer.Length && c.ESP <= c.Csm.buffer.Length)
    && (forall s :: s in stacks ==> s.current_co == null && s.top + Word <= s.buffer.Length)
    && (forall c, d :: c in cos && d in cos && c != d && c.Csm == d.Csm ==> c.IsShareStack && d.IsShareStack)
  }

  class Co_Rountinue_Env {
    const Co_CallBack: array<Co_Entity?>
    var Co_ESP: int
    var using_Co: Co_Entity?
    var prev_Co: Co_Entity?
    const pfn: seq<Byte>
    ghost const cos: set<Co_Entity>
    ghost const stacks: set<Co_Stack_Member>
    ghost const buffers: set<array<Byte>>

    /** init_thisThread_Env (lines 454-479), for a thread that will have the given coroutines and stacks.
        If none of them has been used yet, the runs of StackTheorems start here. */
    constructor (main: Co_Entity, cos: set<Co_Entity>, stacks: set<Co_Stack_Member>, buffers: set<array<Byte>>, pfn: seq<Byte>)
      requires main in cos
      requires forall s :: s in stacks ==> s.buffer in buffers
      requires forall s, t :: s in stacks && t in stacks && s != t ==> s.buffer != t.buffer
      ensures Valid() && fresh(Co_CallBack)
      ensures this.cos == cos && this.stacks == stacks && this.buffers == buffers && this.pfn == pfn
      ensures Abs().call == [main] && Abs().using_Co == None && Abs().prev_Co == None && main in Abs().cos
      ensures Unused(main, cos, stacks, pfn) ==> Created(State(Abs(), map c | c in Abs().cos :: map[], {}))
    {
      var callBack := new Co_Entity?[MaximumNumberOfCoroutinesAllowed](_ => null);
      callBack[0] := main;
      Co_CallBack, Co_ESP := callBack, 1;
      using_Co, prev_Co := null, null;
      this.cos, this.stacks, this.buffers, this.pfn := cos, stacks, buffers, pfn;
      new;
      assert Calls() == [main];
      if Unused(main, cos, stacks, pfn) {
        StartsCreated(main);
      }
    }

    lemma StartsCreated(main: Co_Entity)
      requires Valid() && main in cos && Calls() == [main] && using_Co == null && Unused(main, cos, stacks, pfn)
      ensures Created(State(Abs(), map c | c in Abs().cos :: map[], {}))
    {
      var m := Abs();
      assert Shape(m) by {
        forall c | c in m.cos ensures CoShape(m, c) {
        }
        forall s | s in m.stacks ensures StackShape(m, s) {
        }
      }
      assert Exclusive(m) by {
        hide Shape;
      }
      hide Shape, Exclusive;
    }

    ghost predicate Valid()
      reads this, Co_CallBack
    {
      && Co_CallBack.Length == MaximumNumberOfCoroutinesAllowed
      && 0 <= Co_ESP <= Co_CallBack.Length
      && (forall i :: 0 <= i < Co_ESP ==> Co_CallBack[i] != null)
      && (forall b: array<Byte> :: b in buffers ==> b as object != Co_CallBack)
      && (forall s :: s in stacks ==> s.buffer in buffers)
      && (forall s, t :: s in stacks && t in stacks && s != t ==> s.buffer != t.buffer)
    }

    ghost function StackValue(s: Co_Stack_Member): Stack<Co_Entity>
      reads s, s.buffer
    {
      Stack(Maybe(s.current_co), s.buffer[..], s.top)
    }

    ghost function Calls(): seq<Co_Entity>
      reads this, Co_CallBack
      requires Valid()
    {
      seq(Co_ESP, i requires 0 <= i < Co_ESP reads this, Co_CallBack requires Valid() => Co_CallBack[i])
    }

    ghost function Cos(): map<Co_Entity, Co<Co_Stack_Member>>
      reads this, cos
    {
      map c | c in cos :: c.Value()
    }

    ghost function Stacks(): map<Co_Stack_Member, Stack<Co_Entity>>
      reads this, stacks, buffers
      requires forall s :: s in stacks ==> s.buffer in buffers
    {
      map s | s in stacks :: StackValue(s)
    }

    /** The machine this environment holds. */
    ghost function Abs(): Machine<Co_Entity, Co_Stack_Member>
      reads this, Co_CallBack, cos, stacks, buffers
      requires Valid()
    {
      Machine(Cos(), Stacks(), Calls(), Maybe(using_Co), Maybe(prev_Co), pfn)
    }

    /** memcpy into a stack buffer. */
    method Memcpy(s: Co_Stack_Member, at: nat, bytes: seq<Byte>)
      requires Valid() && s in stacks && at + |bytes| <= s.buffer.Length
      modifies s.buffer
      ensures Valid() && Abs() == SetBuffer(old(Abs()), s, Put(old(s.buffer[..]), at, bytes))
    {
      ghost var was := s.buffer[..];
      forall i | 0 <= i < |bytes| {
        s.buffer[at + i] := bytes[i];
      }
      assert s.buffer[..] == Put(was, at, bytes);
      hide Put;
      assert Calls() == old(Calls());
      assert Stacks() == old(Stacks())[s := old(StackValue(s)).(buffer := s.buffer[..])];
    }

    method Copy_stackMember(occupy: Co_Entity)
      requires Valid() && occupy in cos && occupy.Csm in stacks && occupy.ESP <= occupy.Csm.buffer.Length
      modifies occupy`Used_Stack
      ensures Valid() && Calls() == old(Calls()) && Stacks() == old(Stacks())
      ensures Cos() == old(Cos())[occupy := old(occupy.Value()).(Used_Stack := Some(occupy.Csm.buffer[occupy.ESP..]))]
    {
      occupy.Used_Stack := Some(occupy.Csm.buffer[occupy.ESP..]);
    }

    /** co_swap_Co up to the jump, but for ESP (lines 526-541). */
    method OccupyStack(pending: Co_Entity)
      requires Valid() && pending in cos && Shape(Abs())
      modifies this`using_Co, this`prev_Co, pending.Csm`current_co, cos`Used_Stack
      ensures Valid() && Abs() == Occupy(old(Abs()), pending)
    {
      hide Shape;
      ghost var m := Abs();
      if !pending.IsShareStack {
        using_Co, prev_Co := null, null;
        assert Calls() == old(Calls()) && Stacks() == old(Stacks()) && Cos() == old(Cos());
      } else {
        OccupyIs(m, pending);
        hide Occupy, Calls;
        var occupy_Co := TakeStack(pending);
        if occupy_Co != null && occupy_Co != pending {
          assert occupy_Co in m.cos && CoShape(m, occupy_Co);
          hide CoShape;
          Copy_stackMember(occupy_Co);
        }
      }
    }

    /** Lines 531-536: pending becomes the occupant of its stack. */
    method TakeStack(pending: Co_Entity) returns (occupy_Co: Co_Entity?)
      requires Valid() && pending in cos && pending.Csm in stacks
      modifies this`using_Co, this`prev_Co, pending.Csm`current_co
      ensures Valid() && occupy_Co == old(pending.Csm.current_co) && using_Co == pending && prev_Co == occupy_Co
      ensures Calls() == old(Calls()) && Cos() == old(Cos())
      ensures Stacks() == old(Stacks())[pending.Csm := old(StackValue(pending.Csm)).(current_co := Some(pending))]
    {
      using_Co := pending;
      occupy_Co := pending.Csm.current_co;
      pending.Csm.current_co := pending;
      prev_Co := occupy_Co;
      assert Calls() == old(Calls());
    }

    method SaveContext(current: Co_Entity, p: Point)
      requires Valid() && current in cos
      modifies current`rsp, current`ret
      ensures Valid() && Abs() == RegsOut(old(Abs()), current, p.rsp, p.ret)
    {
      current.rsp, current.ret := p.rsp, p.ret;
      assert Calls() == old(Calls()) && Stacks() == old(Stacks());
      assert Cos() == old(RegsOut(Abs(), current, p.rsp, p.ret).cos);
    }

    /** What coctx_swap leaves in memory: the context it saves, and the return address it pushes on the
        stack it goes to. */
    method SwapContext(current: Co_Entity, pending: Co_Entity, p: Point)
      requires Valid() && current in cos && pending in cos && CoShape(RegsOut(Abs(), current, p.rsp, p.ret), pending)
      modifies current`rsp, current`ret, pending.Csm.buffer
      ensures Valid()
      ensures CoShape(RegsOut(old(Abs()), current, p.rsp, p.ret), pending)
      ensures Abs() == Jump(RegsOut(old(Abs()), current, p.rsp, p.ret), pending)
    {
      SaveContext(current, p);
      Memcpy(pending.Csm, pending.rsp, pending.ret);
    }

    /** What co_swap_Co does once it is back (lines 574-582). */
    method RestoreStack()
      requires Valid()
      requires MustRestore(Abs()) ==>
        && Abs().using_Co.value in Abs().cos && CoShape(Abs(), Abs().using_Co.value) && IsSaved(Abs(), Abs().using_Co.value)
      modifies buffers
      ensures Valid() && Abs() == Restore(old(Abs()))
    {
      if using_Co != null && prev_Co != null && using_Co != prev_Co {
        if using_Co.Used_Stack.Some? && |using_Co.Used_Stack.value| > 0 {
          Memcpy(using_Co.Csm, using_Co.ESP, using_Co.Used_Stack.value);
        }
      }
    }

    /** Co_swap_Co. A coroutine entered for the first time does not come by the restoring code. */
    method co_swap_Co(pending: Co_Entity, current: Co_Entity, p: Point, first: bool)
      requires Valid() && CanSwap(Abs(), pending, current, p, first)
      modifies this`using_Co, this`prev_Co, cos, stacks, buffers
      ensures Valid() && CanSwap(old(Abs()), pending, current, p, first)
      ensures Abs() == SwapCo(old(Abs()), pending, current, p, first)
    {
      ghost var m := Abs();
      hide Shape, Occupy, SwitchOut, Jump, Restore, MustRestore, EspOut, RegsOut, CanSwap, CoShape;
      CanSwapNames(m, pending, current, p, first);
      LateSave(m, pending, current, p);
      SwapShape(m, pending, current, p);
      if !first {
        RestoreFits(m, pending, current, p);
      }
      LeaveStack(current, p);
      OccupyStack(pending);
      SwapContext(current, pending, p);
      if !first {
        RestoreStack();
      }
    }

    /** The address of co_swap_Co's local is where the live bytes of the one that stops begin. */
    method LeaveStack(current: Co_Entity, p: Point)
      requires Valid() && current in cos
      modifies current`ESP
      ensures Valid() && Abs() == EspOut(old(Abs()), current, p.ESP)
    {
      current.ESP := p.ESP;
      assert Stacks() == old(Stacks()) && Calls() == old(Calls());
      assert Cos() == old(EspOut(Abs(), current, p.ESP).cos);
    }

    method SetEntry(co: Co_Entity)
      requires Valid() && co in cos
      modifies co`rsp, co`ret, co`ISstart
      ensures Valid()
      ensures Abs() == old(Abs()).(cos := old(Cos())[co := old(co.Value()).(rsp := co.Csm.top, ret := pfn, ISstart := true)])
    {
      co.rsp, co.ret := co.Csm.top, pfn;
      co.ISstart := true;
      assert Stacks() == old(Stacks()) && Calls() == old(Calls());
    }

    /** The first half of Co_resume (lines 618-621): a first context for a coroutine that has none. */
    method Prepare(co: Co_Entity)
      requires Valid() && Shape(Abs()) && co in cos
      modifies co, co.Csm.buffer
      ensures Valid() && Abs() == if old(co.ISstart) then old(Abs()) else Make(old(Abs()), co)
    {
      hide Shape, Calls;
      StackShapes(Abs(), co);
      hide CoShape;
      if !co.ISstart {
        Memcpy(co.Csm, co.Csm.top, pfn);
        SetEntry(co);
      }
    }

    method Push(co: Co_Entity)
      requires Valid() && Co_ESP < Co_CallBack.Length
      modifies Co_CallBack, this`Co_ESP
      ensures Valid() && Abs() == old(Abs()).(call := old(Calls()) + [co])
    {
      Co_CallBack[Co_ESP] := co;
      Co_ESP := Co_ESP + 1;
      assert Calls() == old(Calls()) + [co];
      assert Cos() == old(Cos()) && Stacks() == old(Stacks());
    }

    method Pop()
      requires Valid() && Co_ESP > 1
      modifies this`Co_ESP
      ensures Valid() && |old(Calls())| > 1 && Abs() == Popped(old(Abs()))
    {
      Co_ESP := Co_ESP - 1;
      assert Calls() == old(Calls())[..Co_ESP];
      assert Cos() == old(Cos()) && Stacks() == old(Stacks());
    }

    /** Co_resume. */
    method Co_resume(co: Co_Entity, p: Point)
      requires Valid() && Enabled(Abs(), Resume(co, p))
      modifies this, Co_CallBack, cos, stacks, buffers
      ensures Valid() && Enabled(old(Abs()), Resume(co, p)) && Abs() == Step(old(Abs()), Resume(co, p))
    {
      hide Shape, MachineInv, CanSwap, SwapCo, Make, Exclusive, Enabled, AboutToSwap, CoShape;
      ghost var m := Abs();
      EnabledNames(m, Resume(co, p));
      RoomToResume(m, co, p);
      ResumeReady(m, co, p);
      AboutNames(BeforeResume(m, co), co, Running(m), p, !co.ISstart);
      var current := Co_CallBack[Co_ESP - 1];
      var first := !co.ISstart;
      assert current == Running(m);
      hide Calls, Placed;
      Prepare(co);
      Push(co);
      co_swap_Co(co, current, p, first);
    }

    /** Co_yeild. */
    method Co_yeild(p: Point)
      requires Valid() && Enabled(Abs(), Yield(p))
      modifies this`Co_ESP, this`using_Co, this`prev_Co, cos, stacks, buffers
      ensures Valid() && Enabled(old(Abs()), Yield(p)) && Abs() == Step(old(Abs()), Yield(p))
    {
      hide Shape, MachineInv, CanSwap, SwapCo, Exclusive, Enabled, AboutToSwap, CoShape, Placed, Cos, Stacks;
      ghost var m := Abs();
      EnabledNames(m, Yield(p));
      YieldReady(m, p);
      AboutNames(Popped(m), m.call[|m.call| - 2], Running(m), p, false);
      var pending := Co_CallBack[Co_ESP - 2];
      var current := Co_CallBack[Co_ESP - 1];
      assert pending == m.call[|m.call| - 2] && current == Running(m);
      Pop();
      hide Calls, Popped;
      co_swap_Co(pending, current, p, false);
    }

    /** Co_realRunningFun once the function of the coroutine has returned. */
    method Co_realRunningFun(p: Point)
      requires Valid() && Enabled(Abs(), Finish(p))
      modifies this`Co_ESP, this`using_Co, this`prev_Co, cos, stacks, buffers
      ensures Valid() && Enabled(old(Abs()), Finish(p)) && Abs() == Step(old(Abs()), Finish(p))
    {
      hide Shape, MachineInv, Exclusive, Enabled, Step;
      EnabledNames(Abs(), Finish(p));
      FinishIsYield(Abs(), p);
      EndRunning();
      Co_yeild(p);
    }

    /** Line 606. */
    method EndRunning()
      requires Valid() && Shape(Abs())
      modifies cos`IsEnd
      ensures Valid() && Abs() == Ended(old(Abs()))
    {
      hide Shape;
      CallNames(Abs());
      var Co := Co_CallBack[Co_ESP - 1];
      Co.IsEnd := true;
      assert Calls() == old(Calls()) && Cos() == Ended(old(Abs())).cos && Stacks() == old(Stacks());
    }

    /** A coroutine stores a byte on its own stack. */
    method Poke(at: nat, b: Byte)
      requires Valid() && Enabled(Abs(), Write(at, b))
      modifies buffers
      ensures Valid() && Enabled(old(Abs()), Write(at, b)) && Abs() == Step(old(Abs()), Write(at, b))
    {
      hide Shape, MachineInv, Exclusive;
      EnabledNames(Abs(), Write(at, b));
      Memcpy(Co_CallBack[Co_ESP - 1].Csm, at, [b]);
    }
  }
}
