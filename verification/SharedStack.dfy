/** Coroutines that share stacks (Co_Routine.cpp:493-624), as functions on values: who occupies each
    stack, what is in its buffer, and what was copied aside for the others. Coroutines are named by C
    and stacks by S. An address on a stack is its offset from the start of the buffer. */
module SharedStack {
  import opened Options

  type Byte = bv8

  /** Co_Entity, with the two stack-related words of its saved context. */
  datatype Co<S> = Co(
    Csm: S,
    IsShareStack: bool,
    ISstart: bool,
    IsEnd: bool,
    ESP: nat,
    Used_Stack: Option<seq<Byte>>,
    rsp: nat,         // cst.regs[kRSP]
    ret: seq<Byte>)   // cst.regs[kRETAddr]

  /** Co_Stack_Member; `top` is the offset at which co_swap_make places the first return address. */
  datatype Stack<C> = Stack(current_co: Option<C>, buffer: seq<Byte>, top: nat)

  datatype Machine<C, S> = Machine(
    cos: map<C, Co<S>>,
    stacks: map<S, Stack<C>>,
    call: seq<C>,          // Co_CallBack[0..Co_ESP)
    using_Co: Option<C>,
    prev_Co: Option<C>,
    pfn: seq<Byte>)        // the address of Co_realRunningFun

  const Word: nat := 8
  const MaximumNumberOfCoroutinesAllowed: nat := 256

  function Put(buffer: seq<Byte>, at: nat, bytes: seq<Byte>): (r: seq<Byte>)
    requires at + |bytes| <= |buffer|
    ensures |r| == |buffer|
    ensures forall i :: 0 <= i < |r| ==> r[i] == if at <= i < at + |bytes| then bytes[i - at] else buffer[i]
  {
    buffer[..at] + bytes + buffer[at + |bytes|..]
  }

  // ---------- shape ----------

  function StackOf<C, S>(m: Machine<C, S>, c: C): Stack<C>
    requires c in m.cos && m.cos[c].Csm in m.stacks
  {
    m.stacks[m.cos[c].Csm]
  }

  ghost predicate CoShape<C, S>(m: Machine<C, S>, c: C)
    requires c in m.cos
  {
    var co := m.cos[c];
    && co.Csm in m.stacks
    && co.rsp + Word <= |StackOf(m, c).buffer| && |co.ret| == Word
    && co.ESP <= |StackOf(m, c).buffer|
  }

  predicate Occupies<C(==), S>(m: Machine<C, S>, c: C)
    requires c in m.cos && m.cos[c].Csm in m.stacks
  {
    StackOf(m, c).current_co == Some(c)
  }

  /** The saved copy is the part of the stack from ESP to stack_bp, at least in size. */
  predicate IsSaved<C, S>(m: Machine<C, S>, c: C)
    requires c in m.cos && m.cos[c].Csm in m.stacks
  {
    m.cos[c].Used_Stack.Some? && |m.cos[c].Used_Stack.value| + m.cos[c].ESP == |StackOf(m, c).buffer|
  }

  ghost predicate StackShape<C, S>(m: Machine<C, S>, s: S)
    requires s in m.stacks
  {
    var st := m.stacks[s];
    && st.top + Word <= |st.buffer|
    && (st.current_co.Some? ==>
          var o := st.current_co.value;
          o in m.cos && m.cos[o].Csm == s && m.cos[o].IsShareStack && m.cos[o].ISstart)
  }

  /** Everything named exists, and every address lies in the buffer it is for. */
  ghost predicate Shape<C, S>(m: Machine<C, S>) {
    && |m.pfn| == Word
    && m.call != [] && (forall i :: 0 <= i < |m.call| ==> m.call[i] in m.cos)
    && (m.using_Co.Some? ==> m.using_Co.value in m.cos)
    && (forall c :: c in m.cos ==> CoShape(m, c))
    && (forall s :: s in m.stacks ==> StackShape(m, s))
  }

  function Running<C, S>(m: Machine<C, S>): C
    requires m.call != []
  {
    m.call[|m.call| - 1]
  }

  // ---------- the code ----------

  function SetBuffer<C, S>(m: Machine<C, S>, s: S, buffer: seq<Byte>): Machine<C, S>
    requires s in m.stacks
  {
    m.(stacks := m.stacks[s := m.stacks[s].(buffer := buffer)])
  }

  /** co_swap_make, as far as memory goes (coswap.cpp:130-146): the entry address goes on the stack. */
  function Make<C, S>(m: Machine<C, S>, c: C): Machine<C, S>
    requires Shape(m) && c in m.cos
  {
    var st := StackOf(m, c);
    SetBuffer(m, m.cos[c].Csm, Put(st.buffer, st.top, m.pfn))
      .(cos := m.cos[c := m.cos[c].(rsp := st.top, ret := m.pfn, ISstart := true)])
  }

  /** Copy_stackMember (lines 494-516). */
  function Save<C, S>(m: Machine<C, S>, occupy: C): Machine<C, S>
    requires Shape(m) && occupy in m.cos
  {
    m.(cos := m.cos[occupy := m.cos[occupy].(Used_Stack := Some(StackOf(m, occupy).buffer[m.cos[occupy].ESP..]))])
  }

  /** co_swap_Co up to the jump (lines 523-541). */
  function Occupy<C(==), S>(m: Machine<C, S>, pending: C): Machine<C, S>
    requires Shape(m) && pending in m.cos
  {
    if !m.cos[pending].IsShareStack then
      m.(using_Co := None, prev_Co := None)
    else
      var s := m.cos[pending].Csm;
      var occupant := m.stacks[s].current_co;
      var m' := if occupant.Some? && occupant.value != pending then Save(m, occupant.value) else m;
      m'.(using_Co := Some(pending), prev_Co := occupant,
          stacks := m'.stacks[s := m'.stacks[s].(current_co := Some(pending))])
  }

  /** coctx_swap, as far as memory goes: it pushes the return address of the context it loads. */
  function Jump<C, S>(m: Machine<C, S>, pending: C): Machine<C, S>
    requires pending in m.cos && CoShape(m, pending)
  {
    var co := m.cos[pending];
    SetBuffer(m, co.Csm, Put(m.stacks[co.Csm].buffer, co.rsp, co.ret))
  }

  /** The restore guard of line 578. */
  predicate MustRestore<C(==), S>(m: Machine<C, S>) {
    m.using_Co.Some? && m.prev_Co.Some? && m.using_Co != m.prev_Co
  }

  /** The rest of co_swap_Co, run by whoever regained control (lines 574-582). */
  function Restore<C(==), S>(m: Machine<C, S>): Machine<C, S>
    requires MustRestore(m) ==>
      && m.using_Co.value in m.cos && CoShape(m, m.using_Co.value) && IsSaved(m, m.using_Co.value)
  {
    if MustRestore(m) then
      var co := m.cos[m.using_Co.value];
      if co.Used_Stack.Some? && |co.Used_Stack.value| > 0 then
        SetBuffer(m, co.Csm, Put(m.stacks[co.Csm].buffer, co.ESP, co.Used_Stack.value))
      else m
    else m
  }

  /** Where a coroutine is when it gives up control: the offset of co_swap_Co's local, and the stack
      pointer and return address at the jump. Its live bytes start at ESP. */
  datatype Point = Point(ESP: nat, rsp: nat, ret: seq<Byte>)

  ghost predicate Placed<C, S>(m: Machine<C, S>, c: C, p: Point)
    requires c in m.cos && m.cos[c].Csm in m.stacks
  {
    p.rsp + Word <= p.ESP <= StackOf(m, c).top && |p.ret| == Word
  }

  /** ESP, stack pointer and return address of the coroutine that stops. (The latter two reach its
      saved context only at the jump, but nothing reads them before.) */
  function SwitchOut<C, S>(m: Machine<C, S>, current: C, p: Point): (r: Machine<C, S>)
    requires Shape(m) && current in m.cos && Placed(m, current, p)
    ensures Shape(r)
  {
    m.(cos := m.cos[current := m.cos[current].(ESP := p.ESP, rsp := p.rsp, ret := p.ret)])
  }

  /** What co_swap_Co may rely on: whoever is running occupies its stack, and whoever is switched to
      has been started before unless this is its first entry. */
  ghost predicate CanSwap<C, S>(m: Machine<C, S>, pending: C, current: C, p: Point, first: bool) {
    && Shape(m) && pending in m.cos && current in m.cos && Placed(m, current, p)
    && (m.cos[current].IsShareStack ==> Occupies(m, current))
    && (m.cos[pending].IsShareStack ==> m.cos[pending].ISstart)
    && (m.cos[pending].IsShareStack && !first ==>
          StackOf(m, pending).current_co.Some? && (Occupies(m, pending) || IsSaved(m, pending)))
    && (first ==> !Occupies(m, pending))
  }

  lemma SaveShape<C, S>(m: Machine<C, S>, c: C)
    requires Shape(m) && c in m.cos
    ensures Shape(Save(m, c))
  {
    var r := Save(m, c);
    forall d | d in r.cos ensures CoShape(r, d) {
      assert CoShape(m, d);
    }
    forall s | s in r.stacks ensures StackShape(r, s) {
      assert StackShape(m, s);
    }
  }

  lemma OccupyShape<C, S>(m: Machine<C, S>, pending: C)
    requires Shape(m) && pending in m.cos && (m.cos[pending].IsShareStack ==> m.cos[pending].ISstart)
    ensures Shape(Occupy(m, pending))
  {
    assert CoShape(m, pending);
    var s := m.cos[pending].Csm;
    if m.cos[pending].IsShareStack {
      var o := m.stacks[s].current_co;
      assert StackShape(m, s);
      if o.Some? && o.value != pending {
        SaveShape(m, o.value);
      }
    }
    var r := Occupy(m, pending);
    hide Save;
    forall d | d in r.cos ensures CoShape(r, d) {
      assert CoShape(m, d);
    }
    forall s | s in r.stacks ensures StackShape(r, s) {
      assert StackShape(m, s);
    }
  }

  lemma JumpShape<C, S>(m: Machine<C, S>, pending: C)
    requires Shape(m) && pending in m.cos
    ensures CoShape(m, pending) && Shape(Jump(m, pending))
  {
    assert CoShape(m, pending);
    var r := Jump(m, pending);
    forall d | d in r.cos ensures CoShape(r, d) {
      assert CoShape(m, d);
    }
    forall s | s in r.stacks ensures StackShape(r, s) {
      assert StackShape(m, s);
    }
  }

  lemma SwapShape<C, S>(m: Machine<C, S>, pending: C, current: C, p: Point)
    requires Shape(m) && pending in m.cos && current in m.cos && Placed(m, current, p)
    requires m.cos[pending].IsShareStack ==> m.cos[pending].ISstart
    ensures Shape(Occupy(SwitchOut(m, current, p), pending))
    ensures CoShape(Occupy(SwitchOut(m, current, p), pending), pending)
    ensures Shape(Jump(Occupy(SwitchOut(m, current, p), pending), pending))
  {
    hide Shape;
    OccupyShape(SwitchOut(m, current, p), pending);
    JumpShape(Occupy(SwitchOut(m, current, p), pending), pending);
  }

  /** When the guard fires for a coroutine that ran before, it has been saved. */
  lemma RestoreFits<C, S>(m: Machine<C, S>, pending: C, current: C, p: Point)
    requires CanSwap(m, pending, current, p, false) && CoShape(Occupy(SwitchOut(m, current, p), pending), pending)
    ensures var m3 := Jump(Occupy(SwitchOut(m, current, p), pending), pending);
            MustRestore(m3) ==>
              && m3.using_Co == Some(pending) && pending in m3.cos
              && CoShape(m3, pending) && IsSaved(m3, pending)
  {
    assert CoShape(m, pending);
  }

  /** co_swap_Co (lines 519-583); a coroutine entered for the first time starts in
      Co_realRunningFun and does not come by the restoring code. */
  function SwapCo<C(==), S>(m: Machine<C, S>, pending: C, current: C, p: Point, first: bool): Machine<C, S>
    requires CanSwap(m, pending, current, p, first)
  {
    SwapShape(m, pending, current, p);
    var m2 := Occupy(SwitchOut(m, current, p), pending);
    var m3 := Jump(m2, pending);
    if first then m3
    else
      RestoreFits(m, pending, current, p);
      Restore(m3)
  }

  // ---------- what a coroutine sees ----------

  /** The byte at offset i of c's stack, as c will find it: in the buffer if c occupies the stack or
      owns it alone, otherwise in the copy that was set aside. */
  function ByteAt<C(==), S>(m: Machine<C, S>, c: C, i: nat): Option<Byte>
    requires c in m.cos && m.cos[c].Csm in m.stacks
  {
    var co := m.cos[c];
    var buffer := StackOf(m, c).buffer;
    if !co.IsShareStack || Occupies(m, c) then
      if i < |buffer| then Some(buffer[i]) else None
    else if co.Used_Stack.Some? && co.ESP <= i < co.ESP + |co.Used_Stack.value| then
      Some(co.Used_Stack.value[i - co.ESP])
    else None
  }

  /** A stack that is not shared belongs to one coroutine. */
  ghost predicate Exclusive<C, S>(m: Machine<C, S>) {
    forall c, d :: c in m.cos && d in m.cos && c != d && m.cos[c].Csm == m.cos[d].Csm ==>
      m.cos[c].IsShareStack && m.cos[d].IsShareStack
  }

  lemma SwitchOutSees<C, S>(m: Machine<C, S>, current: C, p: Point, c: C, i: nat)
    requires Shape(m) && current in m.cos && Placed(m, current, p) && c in m.cos
    requires m.cos[current].IsShareStack ==> Occupies(m, current)
    ensures CoShape(SwitchOut(m, current, p), c) && ByteAt(SwitchOut(m, current, p), c, i) == ByteAt(m, c, i)
  {
    assert CoShape(m, c) && CoShape(m, current);
  }

  lemma OccupySees<C, S>(m: Machine<C, S>, pending: C, c: C, i: nat)
    requires Shape(m) && pending in m.cos && c in m.cos && c != pending && Exclusive(m)
    requires m.cos[pending].IsShareStack ==> m.cos[pending].ISstart
    requires m.cos[c].ESP <= i
    ensures CoShape(Occupy(m, pending), c) && ByteAt(Occupy(m, pending), c, i) == ByteAt(m, c, i)
  {
    OccupyShape(m, pending);
    assert CoShape(m, c) && CoShape(m, pending) && CoShape(Occupy(m, pending), c);
    assert StackShape(m, m.cos[pending].Csm);
    assert m.cos[c].Csm == m.cos[pending].Csm ==> m.cos[c].IsShareStack && m.cos[pending].IsShareStack;
    hide Shape, Exclusive;
    OccupySeesShared(m, pending, c, i);
  }

  lemma OccupySeesShared<C, S>(m: Machine<C, S>, pending: C, c: C, i: nat)
    requires pending in m.cos && c in m.cos && c != pending && m.cos[c].ESP <= i && Shape(m)
    requires CoShape(m, c) && CoShape(m, pending) && StackShape(m, m.cos[pending].Csm) && c in Occupy(m, pending).cos
    requires CoShape(Occupy(m, pending), c)
    requires m.cos[c].Csm == m.cos[pending].Csm ==> m.cos[c].IsShareStack && m.cos[pending].IsShareStack
    ensures ByteAt(Occupy(m, pending), c, i) == ByteAt(m, c, i)
  {
    hide Shape;
    if m.cos[c].Csm == m.cos[pending].Csm {
      assert Occupy(m, pending).cos[c] == if Occupies(m, c) then Save(m, c).cos[c] else m.cos[c];
    }
  }

  lemma JumpSees<C, S>(m: Machine<C, S>, pending: C, c: C, i: nat)
    requires Shape(m) && pending in m.cos && c in m.cos && c != pending && Exclusive(m)
    requires m.cos[pending].IsShareStack ==> Occupies(m, pending)
    ensures CoShape(m, pending) && c in Jump(m, pending).cos && CoShape(Jump(m, pending), c)
    ensures ByteAt(Jump(m, pending), c, i) == ByteAt(m, c, i)
  {
    JumpShape(m, pending);
    assert CoShape(m, c);
    assert CoShape(Jump(m, pending), c);
  }

  lemma RestoreSees<C, S>(m: Machine<C, S>, pending: C, c: C, i: nat)
    requires Shape(m) && pending in m.cos && c in m.cos && c != pending && Exclusive(m)
    requires MustRestore(m) ==> m.using_Co == Some(pending) && IsSaved(m, pending) && m.cos[pending].IsShareStack
    requires m.cos[pending].IsShareStack ==> Occupies(m, pending)
    requires CoShape(m, pending)
    ensures CoShape(m, c) && c in Restore(m).cos && CoShape(Restore(m), c) && ByteAt(Restore(m), c, i) == ByteAt(m, c, i)
  {
    assert CoShape(m, c);
  }

  lemma SwitchedOut<C, S>(m: Machine<C, S>, pending: C, current: C, p: Point, first: bool, c: C)
    requires CanSwap(m, pending, current, p, first) && c in m.cos
    ensures var r := SwitchOut(m, current, p);
            && Shape(m) && pending in m.cos && current in m.cos && Placed(m, current, p) && CoShape(m, c)
            && Shape(r) && pending in r.cos && c in r.cos
            && (m.cos[current].IsShareStack ==> Occupies(m, current))
            && (m.cos[pending].IsShareStack ==> m.cos[pending].ISstart)
            && (r.cos[pending].IsShareStack ==> r.cos[pending].ISstart)
            && r.cos[c].ESP == if c == current then p.ESP else m.cos[c].ESP
  {
    assert CoShape(m, c);
    hide Shape;
  }

  /** A switch changes nothing for a coroutine that is not switched to. */
  lemma SwapSparesOthers<C, S>(m: Machine<C, S>, pending: C, current: C, p: Point, first: bool, c: C, i: nat)
    requires CanSwap(m, pending, current, p, first) && Exclusive(m) && c in m.cos && c != pending
    requires (if c == current then p.ESP else m.cos[c].ESP) <= i
    ensures var r := SwapCo(m, pending, current, p, first);
            c in r.cos && CoShape(r, c) && CoShape(m, c) && ByteAt(r, c, i) == ByteAt(m, c, i)
  {
    hide Shape, Exclusive, ByteAt, CanSwap, Occupy, SwitchOut, Jump, Restore, MustRestore, Occupies, CoShape, Placed, IsSaved;
    SwitchedOut(m, pending, current, p, first, c);
    SwapShape(m, pending, current, p);
    var m1 := SwitchOut(m, current, p);
    OccupyNames(m1, pending, c);
    var m2 := Occupy(m1, pending);
    var m3 := Jump(m2, pending);
    SwitchOutSees(m, current, p, c, i);
    SwapKeepsConstants(m, pending, current, p);
    OccupySees(m1, pending, c, i);
    JumpSees(m2, pending, c, i);
    if !first {
      RestoreFits(m, pending, current, p);
      RestoreSees(m3, pending, c, i);
    }
  }

  lemma OccupyNames<C, S>(m: Machine<C, S>, pending: C, c: C)
    requires Shape(m) && pending in m.cos && c in m.cos
    ensures c in Occupy(m, pending).cos && pending in Occupy(m, pending).cos
  {
    hide Shape;
  }

  /** Which stack a coroutine uses, and how, never changes. */
  ghost predicate SameKinds<C, S>(m: Machine<C, S>, r: Machine<C, S>) {
    && r.cos.Keys == m.cos.Keys && r.stacks.Keys == m.stacks.Keys && r.pfn == m.pfn && r.call == m.call
    && (forall c :: c in m.cos ==>
          r.cos[c].Csm == m.cos[c].Csm && r.cos[c].IsShareStack == m.cos[c].IsShareStack
          && r.cos[c].ISstart == m.cos[c].ISstart && r.cos[c].IsEnd == m.cos[c].IsEnd)
    && (forall s :: s in m.stacks ==> |r.stacks[s].buffer| == |m.stacks[s].buffer| && r.stacks[s].top == m.stacks[s].top)
  }

  lemma ExclusiveKept<C, S>(m: Machine<C, S>, r: Machine<C, S>)
    requires SameKinds(m, r) && Exclusive(m)
    ensures Exclusive(r)
  {
  }

  lemma OccupyKinds<C, S>(m: Machine<C, S>, pending: C)
    requires Shape(m) && pending in m.cos
    ensures SameKinds(m, Occupy(m, pending))
    ensures CoShape(m, pending)
    ensures var r := Occupy(m, pending);
            && CoShape(r, pending) && r.cos[pending] == m.cos[pending]
            && (r.using_Co == if m.cos[pending].IsShareStack then Some(pending) else None)
            && (r.prev_Co == if m.cos[pending].IsShareStack then StackOf(m, pending).current_co else None)
            && (m.cos[pending].IsShareStack ==> Occupies(r, pending))
            && (!m.cos[pending].IsShareStack ==> r.stacks == m.stacks)
            && StackOf(r, pending).buffer == StackOf(m, pending).buffer
  {
    assert CoShape(m, pending);
    assert StackShape(m, m.cos[pending].Csm);
  }

  lemma SwitchOutKinds<C, S>(m: Machine<C, S>, current: C, p: Point)
    requires Shape(m) && current in m.cos && Placed(m, current, p)
    ensures SameKinds(m, SwitchOut(m, current, p)) && Shape(SwitchOut(m, current, p))
  {
  }

  lemma JumpKinds<C, S>(m: Machine<C, S>, pending: C)
    requires pending in m.cos && CoShape(m, pending)
    ensures var r := Jump(m, pending);
            && SameKinds(m, r) && r.cos == m.cos && CoShape(r, pending) && r.using_Co == m.using_Co
            && StackOf(r, pending).current_co == StackOf(m, pending).current_co
  {
  }

  lemma SwapKeepsConstants<C, S>(m: Machine<C, S>, pending: C, current: C, p: Point)
    requires CanSwap(m, pending, current, p, false) || CanSwap(m, pending, current, p, true)
    requires Exclusive(m)
    ensures var m1 := SwitchOut(m, current, p);
            var m2 := Occupy(m1, pending);
            && Exclusive(m1) && Exclusive(m2) && CoShape(m2, pending)
            && (m2.cos[pending].IsShareStack ==> Occupies(m2, pending))
            && var m3 := Jump(m2, pending);
               Exclusive(m3) && CoShape(m3, pending) && m3.cos == m2.cos
               && (m3.cos[pending].IsShareStack ==> Occupies(m3, pending))
               && (MustRestore(m3) ==> m3.cos[pending].IsShareStack)
  {
    hide Shape, Exclusive, Occupy, SwitchOut, SameKinds, StackOf;
    var m1 := SwitchOut(m, current, p);
    SwitchOutKinds(m, current, p);
    OccupyKinds(m1, pending);
    var m2 := Occupy(m1, pending);
    JumpKinds(m2, pending);
    ExclusiveKept(m, m1);
    ExclusiveKept(m1, m2);
    ExclusiveKept(m2, Jump(m2, pending));
  }

  lemma RegainSees<C, S>(m: Machine<C, S>, pending: C, i: nat)
    requires Shape(m) && pending in m.cos && CoShape(m, pending)
    requires m.cos[pending].rsp + Word <= m.cos[pending].ESP <= i
    requires m.cos[pending].IsShareStack ==>
      StackOf(m, pending).current_co.Some? && (Occupies(m, pending) || IsSaved(m, pending))
    ensures CoShape(Occupy(m, pending), pending)
    ensures var m3 := Jump(Occupy(m, pending), pending);
            && (MustRestore(m3) ==> m3.using_Co.value in m3.cos && CoShape(m3, m3.using_Co.value)
                                    && IsSaved(m3, m3.using_Co.value))
            && pending in Restore(m3).cos && CoShape(Restore(m3), pending)
            && ByteAt(Restore(m3), pending, i) == ByteAt(m, pending, i)
  {
    OccupyKinds(m, pending);
    hide Occupy, SameKinds, Shape;
  }

  /** A coroutine that regains control in co_swap_Co finds its bytes from ESP on as they were. */
  lemma SwapSeesOwn<C, S>(m: Machine<C, S>, pending: C, current: C, p: Point, i: nat)
    requires CanSwap(m, pending, current, p, false)
    requires var co := if pending == current then m.cos[pending].(ESP := p.ESP, rsp := p.rsp) else m.cos[pending];
             co.rsp + Word <= co.ESP <= i
    ensures var r := SwapCo(m, pending, current, p, false);
            pending in r.cos && CoShape(r, pending) && CoShape(m, pending) && ByteAt(r, pending, i) == ByteAt(m, pending, i)
  {
    assert CoShape(m, pending);
    SwitchOutSees(m, current, p, pending, i);
    SwapShape(m, pending, current, p);
    RestoreFits(m, pending, current, p);
    hide Occupy, Jump, Restore, Shape, ByteAt;
    RegainSees(SwitchOut(m, current, p), pending, i);
  }
}
