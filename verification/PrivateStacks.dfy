/** Shared stacks behave like private ones. Beside the machine runs the simplest account of a private
    stack: for every coroutine, the bytes it has written that its stack pointer still protects. */
module PrivateStacks {
  import opened Options
  import opened SharedStack
  import opened CoroutineCalls

  datatype State<!C, S> = State(
    m: Machine<C, S>,
    own: map<C, map<nat, Byte>>, // what each coroutine wrote, by offset
    lost: set<(C, nat)>)         // where a first entry on its stack wrote over it

  /** A coroutine's stack pointer protects the bytes from ESP on. */
  function Above(bytes: map<nat, Byte>, esp: nat): map<nat, Byte> {
    map i | i in bytes && i >= esp :: bytes[i]
  }

  function Stored(bytes: map<nat, Byte>, at: nat, b: Byte): map<nat, Byte> {
    bytes[at := b]
  }

  /** A first entry puts its return address on the stack while the bytes of the occupant are still in
      the buffer: co_swap_make (line 619) comes before Copy_stackMember (line 539). */
  function WrittenOver<C(==), S>(m: Machine<C, S>, co: C): set<(C, nat)>
    requires co in m.cos && m.cos[co].Csm in m.stacks
  {
    var st := StackOf(m, co);
    if m.cos[co].ISstart || st.current_co.None? then {}
    else set i: nat | st.top <= i < st.top + Word :: (st.current_co.value, i)
  }

  function LostBy<C(==), S>(m: Machine<C, S>, a: Action<C>): set<(C, nat)>
    requires Enabled(m, a)
  {
    match a
    case Resume(co, _) => assert CoShape(m, co); WrittenOver(m, co)
    case _ => {}
  }

  /** Where the running coroutine gives up control, if it does. */
  function GivesUp<C(==)>(a: Action<C>): Option<Point> {
    match a
    case Write(_, _) => None
    case Resume(_, p) => Some(p)
    case Yield(p) => Some(p)
    case Finish(p) => Some(p)
  }

  /** One step. A step that the machine cannot take leaves the state as it is; Inv and Allowed rule that
      out (AllowedIsEnabled). */
  ghost function Next<C, S>(s: State<C, S>, a: Action<C>): State<C, S> {
    if !Enabled(s.m, a) || Running(s.m) !in s.own then s
    else
      var r := Running(s.m);
      match a
      case Write(at, b) => State(Step(s.m, a), s.own[r := Stored(s.own[r], at, b)], s.lost - {(r, at)})
      case _ => State(Step(s.m, a), s.own[r := Above(s.own[r], GivesUp(a).value.ESP)], s.lost + LostBy(s.m, a))
  }

  // ---------- what a step does to the rest of the machine ----------

  ghost predicate SameStack<C, S>(m: Machine<C, S>, r: Machine<C, S>, c: C)
    requires c in m.cos && m.cos[c].Csm in m.stacks && c in r.cos && r.cos[c].Csm in r.stacks
  {
    && r.cos[c].Csm == m.cos[c].Csm && r.cos[c].IsShareStack == m.cos[c].IsShareStack
    && StackOf(r, c).top == StackOf(m, c).top && |StackOf(r, c).buffer| == |StackOf(m, c).buffer|
    && r.pfn == m.pfn
  }

  lemma SwapFrame<C, S>(m: Machine<C, S>, pending: C, current: C, p: Point, first: bool, c: C)
    requires AboutToSwap(m, pending, current, p, first) && c in m.cos
    ensures var r := SwapCo(m, pending, current, p, first);
            && r.cos.Keys == m.cos.Keys && r.call == m.call && CoShape(m, c) && CoShape(r, c) && SameStack(m, r, c)
            && r.cos[c].ESP == (if c == current then p.ESP else m.cos[c].ESP)
            && r.cos[c].ISstart == m.cos[c].ISstart && r.cos[c].IsEnd == m.cos[c].IsEnd
  {
    SwapCoSwaps(m, pending, current, p, first, c);
    hide SwapCo, Shape, Exclusive, CanSwap;
  }

  /** The call stack a step leaves. */
  function CallAfter<C>(call: seq<C>, a: Action<C>): seq<C>
    requires call != []
  {
    match a
    case Write(_, _) => call
    case Resume(co, _) => call + [co]
    case Yield(_) => call[..|call| - 1]
    case Finish(_) => call[..|call| - 1]
  }

  ghost predicate Framed<C, S>(m: Machine<C, S>, r: Machine<C, S>, a: Action<C>, c: C) {
    && c in m.cos && m.call != [] && r.cos.Keys == m.cos.Keys && CoShape(m, c) && CoShape(r, c) && SameStack(m, r, c)
    && r.call == CallAfter(m.call, a)
    && (a.Write? ==> r.cos == m.cos)
    && (!a.Write? ==> r.cos[c].ESP == if c == Running(m) then GivesUp(a).value.ESP else m.cos[c].ESP)
    && (r.cos[c].ISstart == (m.cos[c].ISstart || (a.Resume? && c == a.co)))
    && (r.cos[c].IsEnd == (m.cos[c].IsEnd || (a.Finish? && c == Running(m))))
  }

  lemma StepFrame<C, S>(m: Machine<C, S>, a: Action<C>, c: C)
    requires Enabled(m, a) && c in m.cos
    ensures Framed(m, Step(m, a), a, c)
  {
    hide Step, Enabled, Framed;
    match a
    case Write(at, b) => WriteFrame(m, at, b, c);
    case Resume(co, p) => ResumeFrame(m, co, p, c);
    case Yield(p) => YieldFrame(m, p, c);
    case Finish(p) => FinishFrame(m, p, c);
  }

  lemma ShapeOf<C, S>(m: Machine<C, S>, c: C)
    requires Shape(m) && c in m.cos
    ensures CoShape(m, c)
  {
  }

  lemma FinishFrame<C, S>(m: Machine<C, S>, p: Point, c: C)
    requires Enabled(m, Finish(p)) && c in m.cos
    ensures Framed(m, Step(m, Finish(p)), Finish(p), c)
  {
    hide Shape, Exclusive, Step, Enabled, MachineInv, CoShape;
    EnabledNames(m, Finish(p));
    FinishIsYield(m, p);
    ShapeOf(m, c);
    YieldFrame(Ended(m), p, c);
  }

  lemma WriteFrame<C, S>(m: Machine<C, S>, at: nat, b: Byte, c: C)
    requires Enabled(m, Write(at, b)) && c in m.cos
    ensures Framed(m, Step(m, Write(at, b)), Write(at, b), c)
  {
    assert CoShape(m, c);
    CallNames(m);
    StoreKeeps(m, at, b);
    hide Shape, Exclusive, Enabled, MachineInv;
  }

  lemma YieldFrame<C, S>(m: Machine<C, S>, p: Point, c: C)
    requires Enabled(m, Yield(p)) && c in m.cos
    ensures Framed(m, Step(m, Yield(p)), Yield(p), c)
  {
    assert CoShape(m, c);
    CallNames(m);
    YieldReady(m, p);
    hide SwapCo, Shape, Exclusive, CanSwap, Enabled, MachineInv, AboutToSwap;
    SwapFrame(Popped(m), m.call[|m.call| - 2], Running(m), p, false, c);
  }

  lemma ResumeFrame<C, S>(m: Machine<C, S>, co: C, p: Point, c: C)
    requires Enabled(m, Resume(co, p)) && c in m.cos
    ensures Framed(m, Step(m, Resume(co, p)), Resume(co, p), c)
  {
    hide SwapCo, Exclusive, BeforeResume, CanSwap, Enabled, MachineInv, AboutToSwap;
    EnabledNames(m, Resume(co, p));
    assert CoShape(m, c);
    hide Shape;
    ResumeReady(m, co, p);
    BeforeResumeKeeps(m, co, c);
    BeforeResumeSame(m, co, c);
    hide CoShape;
    SwapFrame(BeforeResume(m, co), co, Running(m), p, !m.cos[co].ISstart, c);
  }

  lemma BeforeResumeSame<C, S>(m: Machine<C, S>, co: C, c: C)
    requires Shape(m) && co in m.cos && c in m.cos && CoShape(m, c)
    ensures var r := BeforeResume(m, co);
            c in r.cos && CoShape(r, c) && SameStack(m, r, c) && r.cos[c].ESP == m.cos[c].ESP
            && r.cos[c].IsEnd == m.cos[c].IsEnd
  {
    assert CoShape(m, co) && StackShape(m, m.cos[co].Csm);
  }

  // ---------- what a step does to the bytes of a stack ----------

  function LiveFrom<C(==), S>(m: Machine<C, S>, c: C, current: C, p: Point): nat
    requires c in m.cos
  {
    if c == current then p.ESP else m.cos[c].ESP
  }

  lemma SwapView<C, S>(m: Machine<C, S>, pending: C, current: C, p: Point, first: bool, c: C, i: nat)
    requires AboutToSwap(m, pending, current, p, first) && c in m.cos && Started(m, c) && !(first && c == pending)
    requires LiveFrom(m, c, current, p) <= i
    ensures var r := SwapCo(m, pending, current, p, first);
            c in r.cos && CoShape(m, c) && CoShape(r, c) && ByteAt(r, c, i) == ByteAt(m, c, i)
  {
    assert CoReady(m, pending, current, first, c);
    hide SwapCo, Shape, Exclusive, ByteAt, Started;
    if c == pending {
      SwapSeesOwn(m, pending, current, p, i);
    } else {
      SwapSparesOthers(m, pending, current, p, first, c, i);
    }
  }

  /** co_swap_make shows through in the top slot of whoever occupies the stack, and nowhere else. */
  lemma MakeSees<C, S>(m: Machine<C, S>, co: C, c: C, i: nat)
    requires MachineInv(m) && co in m.cos && c in m.cos && CoShape(m, co) && c != co
    ensures CoShape(m, c)
    ensures var r := BeforeResume(m, co);
            c in r.cos && CoShape(r, c)
            && ByteAt(r, c, i) ==
                 if (c, i) in WrittenOver(m, co) then Some(m.pfn[i - StackOf(m, c).top]) else ByteAt(m, c, i)
  {
    assert CoShape(m, c) && StackShape(m, m.cos[co].Csm);
    hide Shape;
  }

  /** What giving up control does to the bytes of any started coroutine, the one that stops and the one
      that regains control included: nothing, except where a first entry writes over its stack. */
  lemma StepView<C, S>(m: Machine<C, S>, a: Action<C>, c: C, i: nat)
    requires Enabled(m, a) && !a.Write? && c in m.cos && Started(m, c)
    requires LiveFrom(m, c, Running(m), GivesUp(a).value) <= i
    ensures var r := Step(m, a);
            c in r.cos && CoShape(m, c) && CoShape(r, c)
            && ByteAt(r, c, i) ==
                 if (c, i) in LostBy(m, a) then Some(m.pfn[i - StackOf(m, c).top]) else ByteAt(m, c, i)
  {
    hide Enabled, Step, ByteAt, Shape, Exclusive, Started;
    match a
    case Resume(co, p) => ResumeView(m, co, p, c, i);
    case Yield(p) => YieldView(m, p, c, i);
    case Finish(p) => FinishView(m, p, c, i);
  }

  lemma FinishView<C, S>(m: Machine<C, S>, p: Point, c: C, i: nat)
    requires Enabled(m, Finish(p)) && c in m.cos && Started(m, c)
    requires LiveFrom(m, c, Running(m), p) <= i
    ensures var r := CoroutineCalls.Step(m, Finish(p));
            c in r.cos && CoShape(m, c) && CoShape(r, c) && ByteAt(r, c, i) == ByteAt(m, c, i)
  {
    hide Shape, Exclusive, Step, Enabled, MachineInv, ByteAt, Started, CoShape;
    EnabledNames(m, Finish(p));
    FinishIsYield(m, p);
    ShapeOf(m, c);
    EndedSees(m, c, i);
    YieldView(Ended(m), p, c, i);
  }

  lemma EndedSees<C, S>(m: Machine<C, S>, c: C, i: nat)
    requires Shape(m) && c in m.cos && CoShape(m, c) && Running(m) in m.cos
    ensures var r := Ended(m);
            && c in r.cos && CoShape(r, c) && ByteAt(r, c, i) == ByteAt(m, c, i) && (Started(m, c) <==> Started(r, c))
            && r.call == m.call && r.cos[c].ESP == m.cos[c].ESP
  {
    hide Shape;
  }

  lemma YieldView<C, S>(m: Machine<C, S>, p: Point, c: C, i: nat)
    requires Enabled(m, Yield(p)) && c in m.cos && Started(m, c)
    requires LiveFrom(m, c, Running(m), p) <= i
    ensures var r := CoroutineCalls.Step(m, Yield(p));
            c in r.cos && CoShape(m, c) && CoShape(r, c) && ByteAt(r, c, i) == ByteAt(m, c, i)
  {
    hide SwapCo, Shape, Exclusive, CanSwap, Enabled, MachineInv, AboutToSwap;
    EnabledNames(m, Yield(p));
    YieldReady(m, p);
    PoppedKeeps(m, c);
    PoppedSees(m, c, i);
    hide ByteAt, Started, CoShape;
    SwapView(Popped(m), m.call[|m.call| - 2], Running(m), p, false, c, i);
  }

  lemma PoppedSees<C, S>(m: Machine<C, S>, c: C, i: nat)
    requires |m.call| > 1 && c in m.cos && CoShape(m, c)
    ensures var r := Popped(m);
            && CoShape(r, c) && ByteAt(r, c, i) == ByteAt(m, c, i) && (Started(m, c) <==> Started(r, c))
  {
  }

  lemma ResumeView<C, S>(m: Machine<C, S>, co: C, p: Point, c: C, i: nat)
    requires Enabled(m, Resume(co, p)) && c in m.cos && Started(m, c)
    requires LiveFrom(m, c, Running(m), p) <= i
    ensures var r := CoroutineCalls.Step(m, Resume(co, p));
            c in r.cos && CoShape(m, c) && CoShape(r, c) && CoShape(m, co)
            && ByteAt(r, c, i) ==
                 if (c, i) in WrittenOver(m, co) then Some(m.pfn[i - StackOf(m, c).top]) else ByteAt(m, c, i)
  {
    hide SwapCo, Exclusive, CanSwap, Enabled, MachineInv, AboutToSwap;
    EnabledNames(m, Resume(co, p));
    assert CoShape(m, c);
    hide Shape;
    ResumeReady(m, co, p);
    BeforeResumeKeeps(m, co, c);
    if c != co {
      MakeSees(m, co, c, i);
    }
    assert Started(BeforeResume(m, co), c);
    hide ByteAt;
    SwapView(BeforeResume(m, co), co, Running(m), p, !m.cos[co].ISstart, c, i);
  }

  // ---------- the refinement ----------

  /** What c reads at offset i: its own last store, or the address written over it. */
  ghost predicate Reads<C, S>(s: State<C, S>, c: C, i: nat)
    requires c in s.m.cos && s.m.cos[c].Csm in s.m.stacks && c in s.own && i in s.own[c] && |s.m.pfn| == Word
  {
    var top := StackOf(s.m, c).top;
    ByteAt(s.m, c, i) ==
      if (c, i) in s.lost && top <= i < top + Word then Some(s.m.pfn[i - top]) else Some(s.own[c][i])
  }

  ghost predicate Refines<C, S>(s: State<C, S>, c: C) {
    && Shape(s.m) && c in s.m.cos && CoShape(s.m, c) && c in s.own
    && (!Started(s.m, c) ==> s.own[c] == map[])
    && (forall i :: i in s.own[c] ==> Reads(s, c, i))
    && (forall i :: i in s.own[c] && c != Running(s.m) ==> s.m.cos[c].ESP <= i)
    && (forall i :: i in s.own[c] && (c, i) in s.lost ==> StackOf(s.m, c).top <= i < StackOf(s.m, c).top + Word)
  }

  ghost predicate Inv<C, S>(s: State<C, S>) {
    && MachineInv(s.m) && s.own.Keys == s.m.cos.Keys && Running(s.m) in s.own
    && (forall c :: c in s.m.cos ==> Refines(s, c))
  }

  lemma StepMain<C, S>(m: Machine<C, S>, a: Action<C>, c: C)
    requires Enabled(m, a) && c in m.cos
    ensures var r := Step(m, a);
            r.call != [] && r.call[0] == m.call[0] && c in r.cos
            && (Started(m, c) ==> Started(r, c))
            && (Started(r, c) ==> Started(m, c) || c == Running(r))
            && (a.Write? ==> Running(r) == Running(m) && (Started(r, c) <==> Started(m, c)))
  {
    StepFrame(m, a, c);
    hide Step, Shape, Exclusive, MachineInv;
  }

  lemma WriteSees<C, S>(m: Machine<C, S>, at: nat, b: Byte, c: C, i: nat)
    requires Enabled(m, Write(at, b)) && c in m.cos
    ensures var r := Step(m, Write(at, b));
            && CoShape(m, c) && c in r.cos && CoShape(r, c)
            && ByteAt(r, c, i) == if c == Running(m) && i == at then Some(b) else ByteAt(m, c, i)
  {
    CallNames(m);
    assert CoShape(m, c) && CoShape(m, Running(m)) && CoInv(m, Running(m));
    StackShapes(m, c);
    hide Shape;
  }

  lemma RunningStarted<C, S>(m: Machine<C, S>)
    requires MachineInv(m)
    ensures m.call != [] && Running(m) in m.cos && Started(m, Running(m)) && Shape(m) && |m.pfn| == Word
  {
    CallNames(m);
    assert Running(m) in m.call && CoInv(m, Running(m));
  }

  lemma WriteRefines<C, S>(s: State<C, S>, at: nat, b: Byte, c: C)
    requires Inv(s) && Enabled(s.m, Write(at, b)) && c in s.m.cos
    ensures Refines(Next(s, Write(at, b)), c)
  {
    hide Step, Exclusive, ByteAt, Enabled, Started, MachineInv, Shape;
    var a := Write(at, b);
    var s' := Next(s, a);
    assert Refines(s, c);
    StepKeepsMachineInv(s.m, a);
    StepFrame(s.m, a, c);
    StepMain(s.m, a, c);
    RunningStarted(s.m);
    RunningStarted(s'.m);
    hide Inv;
    forall i | i in s'.own[c] ensures Reads(s', c, i) {
      WriteSees(s.m, at, b, c, i);
      if c != Running(s.m) || i != at {
        assert Reads(s, c, i);
      }
    }
  }

  lemma LostWithin<C, S>(m: Machine<C, S>, a: Action<C>, c: C, i: nat)
    requires Enabled(m, a) && c in m.cos && CoShape(m, c) && (c, i) in LostBy(m, a)
    ensures StackOf(m, c).top <= i < StackOf(m, c).top + Word
  {
    StackShapes(m, a.co);
  }

  lemma SwitchReads<C, S>(s: State<C, S>, a: Action<C>, c: C, i: nat)
    requires Enabled(s.m, a) && Running(s.m) in s.own && !a.Write? && Refines(s, c) && Started(s.m, c)
    requires i in s.own[c] && LiveFrom(s.m, c, Running(s.m), GivesUp(a).value) <= i
    requires var s' := Next(s, a);
             && |s'.m.pfn| == Word && c in s'.m.cos && CoShape(s'.m, c) && SameStack(s.m, s'.m, c)
             && c in s'.own && i in s'.own[c] && s'.own[c][i] == s.own[c][i]
    ensures Reads(Next(s, a), c, i)
  {
    hide Step, LostBy, Enabled, ByteAt, Started;
    assert Reads(s, c, i);
    StepView(s.m, a, c, i);
    if (c, i) in LostBy(s.m, a) {
      LostWithin(s.m, a, c, i);
    }
  }

  lemma SwitchRefines<C, S>(s: State<C, S>, a: Action<C>, c: C)
    requires Inv(s) && Enabled(s.m, a) && !a.Write? && c in s.m.cos
    ensures Refines(Next(s, a), c)
  {
    hide Step, Exclusive, ByteAt, Enabled, Started, MachineInv, Shape, LostBy;
    var s' := Next(s, a);
    assert Refines(s, c);
    StepKeepsMachineInv(s.m, a);
    StepFrame(s.m, a, c);
    StepMain(s.m, a, c);
    RunningStarted(s.m);
    RunningStarted(s'.m);
    hide Inv;
    forall i | i in s'.own[c]
      ensures Reads(s', c, i) && (c != Running(s'.m) ==> s'.m.cos[c].ESP <= i)
        && ((c, i) in s'.lost ==> StackOf(s'.m, c).top <= i < StackOf(s'.m, c).top + Word)
    {
      SwitchReads(s, a, c, i);
      if (c, i) in LostBy(s.m, a) {
        LostWithin(s.m, a, c, i);
      }
    }
  }

  /** Every step of every coroutine keeps the refinement. */
  lemma StepKeeps<C, S>(s: State<C, S>, a: Action<C>)
    requires Inv(s) && Enabled(s.m, a)
    ensures Inv(Next(s, a))
  {
    hide Step, Shape, Exclusive, MachineInv, Enabled, Refines;
    RunningStarted(s.m);
    StepKeepsMachineInv(s.m, a);
    StepFrame(s.m, a, Running(s.m));
    var s' := Next(s, a);
    RunningStarted(s'.m);
    forall c | c in s'.m.cos ensures Refines(s', c) {
      if a.Write? {
        WriteRefines(s, a.at, a.b, c);
      } else {
        SwitchRefines(s, a, c);
      }
    }
  }

  lemma AllowedIsEnabled<C, S>(s: State<C, S>, a: Action<C>)
    requires Inv(s) && Allowed(s.m, a)
    ensures Enabled(s.m, a) && Running(s.m) in s.own
  {
  }

  // ---------- who occupies a stack ----------

  ghost predicate IsRunning<C, S>(m: Machine<C, S>, c: C) {
    m.call != [] && m.call[|m.call| - 1] == c
  }

  /** A coroutine that may find another one on its stack. */
  ghost predicate OnShared<C, S>(m: Machine<C, S>, c: C) {
    c in m.cos && CoShape(m, c) && m.cos[c].IsShareStack && m.cos[c].ISstart
  }

  lemma SwapOccupies<C, S>(m: Machine<C, S>, pending: C, current: C, p: Point, first: bool, c: C)
    requires AboutToSwap(m, pending, current, p, first) && OnShared(m, c)
    ensures var r := SwapCo(m, pending, current, p, first);
            && c in r.cos && CoShape(r, c) && pending in m.cos && CoShape(m, pending)
            && (Occupies(r, c) <==>
                 pending == c || (Occupies(m, c) && !(m.cos[pending].IsShareStack && m.cos[pending].Csm == m.cos[c].Csm)))
  {
    SwapCoSwaps(m, pending, current, p, first, c);
    CanSwapNames(m, pending, current, p, first);
    hide SwapCo, Shape, Exclusive, CanSwap;
  }

  /** Once displaced, a coroutine occupies its stack again only by running. */
  lemma OccupiesAfter<C, S>(m: Machine<C, S>, a: Action<C>, c: C)
    requires Enabled(m, a) && OnShared(m, c) && !Occupies(m, c) && !IsRunning(Step(m, a), c)
    ensures OnShared(Step(m, a), c) && !Occupies(Step(m, a), c)
  {
    hide SwapCo, Shape, Exclusive, CanSwap, MachineInv, Enabled;
    EnabledNames(m, a);
    StepFrame(m, a, c);
    match a
    case Write(_, _) =>
    case Resume(co, p) =>
      ResumeReady(m, co, p);
      BeforeResumeKeeps(m, co, c);
      SwapOccupies(BeforeResume(m, co), co, Running(m), p, !m.cos[co].ISstart, c);
    case Yield(p) =>
      YieldReady(m, p);
      SwapOccupies(Popped(m), m.call[|m.call| - 2], Running(m), p, false, c);
    case Finish(p) =>
      FinishReady(m, p);
      YieldReady(Ended(m), p);
      SwapOccupies(Popped(Ended(m)), m.call[|m.call| - 2], Running(m), p, false, c);
  }

  lemma SharedStays<C, S>(m: Machine<C, S>, a: Action<C>, c: C)
    requires Enabled(m, a) && OnShared(m, c)
    ensures OnShared(Step(m, a), c)
  {
    hide Enabled, Step;
    StepFrame(m, a, c);
  }

  /** A first entry on the stack c occupies puts another byte where c has a live one. */
  ghost predicate Spoils<C, S>(m: Machine<C, S>, a: Action<C>, c: C, i: nat) {
    && a.Resume? && a.co in m.cos && m.cos[a.co].Csm in m.stacks && !m.cos[a.co].ISstart
    && c in m.cos && m.cos[c].Csm in m.stacks && StackOf(m, a.co).current_co == Some(c)
    && var at := i - StackOf(m, a.co).top;
       0 <= at < |m.pfn| && ByteAt(m, c, i) != Some(m.pfn[at])
  }

  /** It also evicts c. */
  lemma SpoilsEvicts<C, S>(m: Machine<C, S>, a: Action<C>, c: C, i: nat)
    requires Enabled(m, a) && Spoils(m, a, c, i)
    ensures c != a.co && OnShared(m, c) && OnShared(Step(m, a), c) && !Occupies(Step(m, a), c)
  {
    EnabledNames(m, a);
    StackShapes(m, a.co);
    SharedStays(m, a, c);
    assert m.cos[a.co].IsShareStack by { Shared(m, a.co, c); }
    hide SwapCo, Shape, Exclusive, CanSwap, MachineInv, Enabled;
    ResumeReady(m, a.co, a.p);
    BeforeResumeKeeps(m, a.co, c);
    BeforeResumeKeeps(m, a.co, a.co);
    SwapOccupies(BeforeResume(m, a.co), a.co, Running(m), a.p, !m.cos[a.co].ISstart, c);
  }

  lemma Shared<C, S>(m: Machine<C, S>, co: C, c: C)
    requires MachineInv(m) && co in m.cos && m.cos[co].Csm in m.stacks && c in m.cos && c != co
    requires StackOf(m, co).current_co == Some(c)
    ensures m.cos[co].IsShareStack
  {
    assert StackShape(m, m.cos[co].Csm);
  }

  /** A coroutine that does not occupy its stack has nothing there to spoil. */
  lemma OnlyOccupantSpoiled<C, S>(m: Machine<C, S>, a: Action<C>, c: C, i: nat)
    requires Enabled(m, a) && OnShared(m, c) && !Occupies(m, c)
    ensures !Spoils(m, a, c, i)
  {
    EnabledNames(m, a);
    if a.Resume? {
      StackShapes(m, a.co);
    }
    hide Enabled, MachineInv, Shape;
  }

  /** What one step other than c's own store does to a live byte of c. */
  lemma ByteStays<C, S>(m: Machine<C, S>, a: Action<C>, c: C, i: nat)
    requires Enabled(m, a) && c in m.cos && Started(m, c)
    requires if c == Running(m) then !a.Write? && GivesUp(a).value.ESP <= i else m.cos[c].ESP <= i
    ensures var r := Step(m, a);
            && c in r.cos && CoShape(m, c) && CoShape(r, c) && r.call != [] && Started(r, c)
            && (!IsRunning(r, c) ==> r.cos[c].ESP <= i)
            && (ByteAt(r, c, i) == ByteAt(m, c, i) <==> !Spoils(m, a, c, i))
  {
    hide Enabled, Step, ByteAt, Started, MachineInv;
    StepFrame(m, a, c);
    StepMain(m, a, c);
    EnabledNames(m, a);
    if a.Write? {
      WriteSees(m, a.at, a.b, c, i);
    } else {
      StepView(m, a, c, i);
      if a.Resume? {
        StackShapes(m, a.co);
      }
    }
    hide Shape;
  }
}
