/** What holds over every run of coroutines that write, resume, yield and finish, on any mix of private
    and shared stacks. */
module StackTheorems {
  import opened Options
  import opened SharedStack
  import opened CoroutineCalls
  import opened PrivateStacks

  // ---------- runs ----------

  /** Every step of the run is one the coroutine that runs may take then. */
  ghost predicate Possible<C, S>(s: State<C, S>, acts: seq<Action<C>>)
    decreases |acts|
  {
    acts != [] ==> Allowed(s.m, acts[0]) && Possible(Next(s, acts[0]), acts[1..])
  }

  ghost function After<C, S>(s: State<C, S>, acts: seq<Action<C>>): State<C, S>
    decreases |acts|
  {
    if acts == [] then s else After(Next(s, acts[0]), acts[1..])
  }

  /** One step of a run. */
  ghost predicate Takes<C, S>(s: State<C, S>, a: Action<C>, s': State<C, S>) {
    Allowed(s.m, a) && s' == Next(s, a)
  }

  lemma TakeStep<C, S>(s: State<C, S>, a: Action<C>)
    requires Inv(s) && Allowed(s.m, a)
    ensures Enabled(s.m, a) && Running(s.m) in s.own
    ensures Inv(Next(s, a)) && Next(s, a).m == Step(s.m, a)
    ensures a.Write? ==> Next(s, a).lost <= s.lost
    ensures !a.Write? ==> Next(s, a).lost == s.lost + LostBy(s.m, a)
  {
    AllowedIsEnabled(s, a);
    hide Inv, Enabled, Step, LostBy;
    StepKeeps(s, a);
  }

  /** The invariant holds in every state of every run that starts in a state where it holds. */
  lemma {:induction false} RunKeeps<C, S>(s: State<C, S>, acts: seq<Action<C>>)
    requires Inv(s) && Possible(s, acts)
    ensures Inv(After(s, acts))
    decreases |acts|
  {
    hide Inv, Allowed, Next;
    if acts != [] {
      TakeStep(s, acts[0]);
      RunKeeps(Next(s, acts[0]), acts[1..]);
    }
  }

  /** What init_thisThread_Env and Co_Create leave (lines 454-479): only the main coroutine runs. */
  ghost predicate Created<C, S>(s: State<C, S>) {
    && Shape(s.m) && Exclusive(s.m) && |s.m.call| == 1 && !s.m.cos[s.m.call[0]].IsShareStack
    && (forall c :: c in s.m.cos ==> !s.m.cos[c].ISstart)
    && (forall k :: k in s.m.stacks ==> s.m.stacks[k].current_co.None?)
    && s.own == (map c | c in s.m.cos :: map[]) && s.lost == {}
  }

  lemma CreatedKeeps<C, S>(s: State<C, S>)
    requires Created(s)
    ensures Inv(s)
  {
    CallNames(s.m);
    forall c | c in s.m.cos ensures CoShape(s.m, c) && CoInv(s.m, c) && Refines(s, c) {
      assert CoShape(s.m, c);
      hide Shape;
    }
  }

  // ---------- the private stacks ----------

  /** The same run on private stacks: nobody's bytes are anybody else's business. */
  datatype Private<!C> = Private(call: seq<C>, own: map<C, map<nat, Byte>>)

  function PrivateNext<C(==)>(q: Private<C>, a: Action<C>): Private<C>
    requires q.call != [] && q.call[|q.call| - 1] in q.own
  {
    var r := q.call[|q.call| - 1];
    Private(CallAfter(q.call, a),
      q.own[r := if a.Write? then Stored(q.own[r], a.at, a.b) else Above(q.own[r], GivesUp(a).value.ESP)])
  }

  ghost predicate IsPrivateRun<C>(q: Private<C>, acts: seq<Action<C>>, q': Private<C>)
    decreases |acts|
  {
    if acts == [] then q' == q
    else q.call != [] && q.call[|q.call| - 1] in q.own && IsPrivateRun(PrivateNext(q, acts[0]), acts[1..], q')
  }

  function PrivateView<C, S>(s: State<C, S>): Private<C> {
    Private(s.m.call, s.own)
  }

  lemma StepIsPrivate<C, S>(s: State<C, S>, a: Action<C>)
    requires Inv(s) && Allowed(s.m, a)
    ensures s.m.call != [] && Running(s.m) in s.own
    ensures PrivateView(Next(s, a)) == PrivateNext(PrivateView(s), a)
  {
    AllowedIsEnabled(s, a);
    hide Step, Inv, Enabled, Allowed, Stored, Above, LostBy;
    CallIsAfter(s.m, a);
  }

  lemma CallIsAfter<C, S>(m: Machine<C, S>, a: Action<C>)
    requires Enabled(m, a)
    ensures m.call != [] && Step(m, a).call == CallAfter(m.call, a)
  {
    EnabledNames(m, a);
    hide Enabled, Step;
    StepFrame(m, a, Running(m));
  }

  /** Every run that starts in a valid state is a run on private stacks, and ends in a valid state: there
      each coroutine reads what its private stack holds, except where a first entry wrote over a byte. */
  lemma {:induction false} SharedStacksArePrivate<C, S>(s: State<C, S>, acts: seq<Action<C>>)
    requires Inv(s) && Possible(s, acts)
    ensures Inv(After(s, acts)) && IsPrivateRun(PrivateView(s), acts, PrivateView(After(s, acts)))
    decreases |acts|
  {
    hide Inv, Allowed, Next, PrivateNext;
    if acts != [] {
      TakeStep(s, acts[0]);
      StepIsPrivate(s, acts[0]);
      SharedStacksArePrivate(Next(s, acts[0]), acts[1..]);
    }
  }

  /** So a coroutine reads what it wrote. */
  lemma ReadsItsOwn<C, S>(s: State<C, S>, acts: seq<Action<C>>, c: C, i: nat)
    requires Inv(s) && Possible(s, acts) && c in After(s, acts).own && i in After(s, acts).own[c]
    ensures var r := After(s, acts);
            && c in r.m.cos && CoShape(r.m, c)
            && ((c, i) !in r.lost || i < StackOf(r.m, c).top ==> ByteAt(r.m, c, i) == Some(r.own[c][i]))
  {
    RunKeeps(s, acts);
    hide Possible, After;
    var r := After(s, acts);
    assert Refines(r, c) && Reads(r, c, i);
  }

  /** From a new thread on, the coroutines read what they would read on private stacks. */
  lemma NewThreadIsPrivate<C, S>(s: State<C, S>, acts: seq<Action<C>>, q: Private<C>, c: C, i: nat)
    requires Created(s) && Possible(s, acts) && q == PrivateView(After(s, acts)) && c in q.own && i in q.own[c]
    ensures IsPrivateRun(Private(s.m.call, map d | d in s.m.cos :: map[]), acts, q)
    ensures var r := After(s, acts);
            && c in r.m.cos && CoShape(r.m, c)
            && ((c, i) !in r.lost || i < StackOf(r.m, c).top ==> ByteAt(r.m, c, i) == Some(q.own[c][i]))
  {
    CreatedKeeps(s);
    assert PrivateView(s) == Private(s.m.call, map d | d in s.m.cos :: map[]);
    hide Created, Inv, After, Possible, CoShape, ByteAt;
    SharedStacksArePrivate(s, acts);
    ReadsItsOwn(s, acts, c, i);
  }

  /** The eviction invariant: the stack of a started coroutine either has it as its occupant, or holds
      another one, and then all its live bytes, as many as from ESP to stack_bp, are in its own copy. */
  lemma EvictedIsSaved<C, S>(s: State<C, S>, acts: seq<Action<C>>, c: C)
    requires Inv(s) && Possible(s, acts) && OnShared(After(s, acts).m, c)
    ensures var r := After(s, acts);
            var co := r.m.cos[c];
            && c in r.own && StackOf(r.m, c).current_co.Some?
            && (c != StackOf(r.m, c).current_co.value ==>
                  && co.Used_Stack.Some? && |co.Used_Stack.value| == |StackOf(r.m, c).buffer| - co.ESP
                  && forall i :: i in r.own[c] && (c, i) !in r.lost ==>
                       co.ESP <= i < |StackOf(r.m, c).buffer| && co.Used_Stack.value[i - co.ESP] == r.own[c][i])
  {
    hide Possible, After, Inv, OnShared, ByteAt, Started;
    RunKeeps(s, acts);
    EvictedNow(After(s, acts), c);
  }

  lemma EvictedNow<C, S>(r: State<C, S>, c: C)
    requires Inv(r) && OnShared(r.m, c)
    ensures var co := r.m.cos[c];
            && c in r.own && StackOf(r.m, c).current_co.Some?
            && (c != StackOf(r.m, c).current_co.value ==>
                  && IsSaved(r.m, c)
                  && forall i :: i in r.own[c] && (c, i) !in r.lost ==>
                       co.ESP <= i < |StackOf(r.m, c).buffer| && co.Used_Stack.value[i - co.ESP] == r.own[c][i])
  {
    assert Refines(r, c) && CoInv(r.m, c);
    hide Inv, MachineInv, Shape;
    forall i | i in r.own[c] && (c, i) !in r.lost && !Occupies(r.m, c)
      ensures r.m.cos[c].ESP <= i && ByteAt(r.m, c, i) == Some(r.own[c][i])
    {
      assert Reads(r, c, i);
    }
  }

  // ---------- when a byte is lost ----------

  /** A started coroutine keeps the byte at i through a switch exactly when the switch does not enter,
      for the first time, a coroutine whose stack it occupies and whose first return address has
      another byte there. */
  lemma ByteKeptIff<C, S>(m: Machine<C, S>, a: Action<C>, c: C, i: nat)
    requires Enabled(m, a) && !a.Write? && c in m.cos && Started(m, c)
    requires LiveFrom(m, c, Running(m), GivesUp(a).value) <= i
    ensures CoShape(m, c)
    ensures var r := Step(m, a);
            c in r.cos && CoShape(r, c) && (ByteAt(r, c, i) == ByteAt(m, c, i) <==> !Spoils(m, a, c, i))
  {
    hide Enabled, Step, ByteAt, Spoils;
    ByteStays(m, a, c, i);
  }

  /** A step that enters, for the first time, a coroutine whose stack is occupied. */
  ghost predicate EntersOccupied<C, S>(m: Machine<C, S>, a: Action<C>) {
    && a.Resume? && a.co in m.cos && m.cos[a.co].Csm in m.stacks
    && !m.cos[a.co].ISstart && StackOf(m, a.co).current_co.Some?
  }

  ghost predicate SomeEntersOccupied<C, S>(s: State<C, S>, acts: seq<Action<C>>)
    decreases |acts|
  {
    acts != [] && (EntersOccupied(s.m, acts[0]) || SomeEntersOccupied(Next(s, acts[0]), acts[1..]))
  }

  /** In no state of the run is a byte lost. */
  ghost predicate NeverLost<C, S>(s: State<C, S>, acts: seq<Action<C>>)
    decreases |acts|
  {
    s.lost == {} && (acts != [] ==> NeverLost(Next(s, acts[0]), acts[1..]))
  }

  lemma LosesIff<C, S>(m: Machine<C, S>, a: Action<C>)
    requires Enabled(m, a)
    ensures LostBy(m, a) != {} <==> EntersOccupied(m, a)
  {
    EnabledNames(m, a);
    if EntersOccupied(m, a) {
      var st := StackOf(m, a.co);
      assert (st.current_co.value, st.top) in WrittenOver(m, a.co);
    }
    hide Enabled, MachineInv;
  }

  /** Shared stacks are private stacks, byte for byte and throughout a run, exactly when the run does not
      enter, for the first time, a coroutine whose stack is occupied. */
  lemma {:induction false} CleanRunIff<C, S>(s: State<C, S>, acts: seq<Action<C>>)
    requires Inv(s) && Possible(s, acts) && s.lost == {}
    ensures NeverLost(s, acts) <==> !SomeEntersOccupied(s, acts)
    decreases |acts|
  {
    hide Inv, Allowed, Next, EntersOccupied, Enabled;
    if acts != [] {
      TakeStep(s, acts[0]);
      LosesIff(s.m, acts[0]);
      var t := Next(s, acts[0]);
      if t.lost == {} {
        CleanRunIff(t, acts[1..]);
      }
    }
  }

  // ---------- while a coroutine is away ----------

  /** Before no step of the run does c have control. */
  ghost predicate Absent<C, S>(s: State<C, S>, acts: seq<Action<C>>, c: C)
    decreases |acts|
  {
    acts != [] ==> !IsRunning(s.m, c) && Absent(Next(s, acts[0]), acts[1..], c)
  }

  ghost predicate SomeSpoils<C, S>(s: State<C, S>, acts: seq<Action<C>>, c: C, i: nat)
    decreases |acts|
  {
    acts != [] && (Spoils(s.m, acts[0], c, i) || SomeSpoils(Next(s, acts[0]), acts[1..], c, i))
  }

  /** Once evicted, and until it runs again, c has its bytes in its own copy. */
  lemma {:induction false} EvictedIsSafe<C, S>(s: State<C, S>, acts: seq<Action<C>>, c: C, i: nat)
    requires Inv(s) && Possible(s, acts) && Absent(s, acts, c) && OnShared(s.m, c) && !Occupies(s.m, c)
    ensures !SomeSpoils(s, acts, c, i)
    decreases |acts|
  {
    hide Inv, Allowed, Next, OnShared, Occupies, Enabled, Step, Spoils;
    if acts != [] {
      TakeStep(s, acts[0]);
      OnlyOccupantSpoiled(s.m, acts[0], c, i);
      if acts[1..] != [] {
        OccupiesAfter(s.m, acts[0], c);
        EvictedIsSafe(Next(s, acts[0]), acts[1..], c, i);
      }
    }
  }

  /** A started coroutine whose byte at i is live for the run: if it runs now, it stops with the first
      step, and above that its bytes are protected. */
  ghost predicate Live<C, S>(m: Machine<C, S>, acts: seq<Action<C>>, c: C, i: nat) {
    && m.call != [] && c in m.cos && Started(m, c)
    && if c == Running(m) then acts != [] ==> !acts[0].Write? && GivesUp(acts[0]).value.ESP <= i else m.cos[c].ESP <= i
  }

  lemma {:induction false} AwayKeepsIff<C, S>(s: State<C, S>, acts: seq<Action<C>>, c: C, i: nat)
    requires Inv(s) && Possible(s, acts) && Live(s.m, acts, c, i)
    requires acts != [] ==> Absent(Next(s, acts[0]), acts[1..], c)
    ensures var r := After(s, acts).m;
            && c in r.cos && CoShape(s.m, c) && CoShape(r, c)
            && (ByteAt(r, c, i) == ByteAt(s.m, c, i) <==> !SomeSpoils(s, acts, c, i))
    decreases |acts|
  {
    assert Refines(s, c);
    hide Inv, Allowed, Next, Enabled, Step, Spoils, ByteAt, Started, Occupies, OnShared, Refines;
    if acts != [] {
      TakeStep(s, acts[0]);
      ByteStays(s.m, acts[0], c, i);
      var t := Next(s, acts[0]);
      if acts[1..] != [] {
        AwayKeepsIff(t, acts[1..], c, i);
        if Spoils(s.m, acts[0], c, i) {
          SpoilsEvicts(s.m, acts[0], c, i);
          EvictedIsSafe(t, acts[1..], c, i);
        }
      }
    }
  }

  /** A coroutine that gives up control with the first step of a run and regains it with the last finds
      a byte from ESP to stack_bp as it left it, whatever ran in between and wherever the byte was kept,
      exactly when no step of the run enters, for the first time, a coroutine on the stack it occupies
      with another byte of the first return address there. */
  lemma RegainsItsStackIff<C, S>(s: State<C, S>, acts: seq<Action<C>>, c: C, i: nat)
    requires Inv(s) && Possible(s, acts) && acts != [] && !acts[0].Write? && GivesUp(acts[0]).value.ESP <= i
    requires IsRunning(s.m, c) && Absent(Next(s, acts[0]), acts[1..], c) && IsRunning(After(s, acts).m, c)
    ensures var r := After(s, acts).m;
            && c in s.m.cos && CoShape(s.m, c) && c in r.cos && CoShape(r, c)
            && (ByteAt(r, c, i) == ByteAt(s.m, c, i) <==> !SomeSpoils(s, acts, c, i))
  {
    hide Possible, After, Absent, SomeSpoils, ByteAt;
    RunningStarted(s.m);
    AwayKeepsIff(s, acts, c, i);
  }

  // ---------- a byte that is lost ----------

  /** A main coroutine 0 and two coroutines 1 and 2 on one shared stack, none started. */
  function TwoOnOneStack(): Machine<nat, nat> {
    var word: seq<Byte> := [0, 0, 0, 0, 0, 0, 0, 0];
    Machine(
      map[0 := Co(0, false, false, false, 0, None, 0, word),
          1 := Co(1, true, false, false, 0, None, 0, word),
          2 := Co(1, true, false, false, 0, None, 0, word)],
      map[0 := Stack(None, word + word, 8), 1 := Stack(None, word + word, 8)],
      [0], None, None, [1, 2, 3, 4, 5, 6, 7, 8])
  }

  function LosingRun(): seq<Action<nat>> {
    var p := Point(8, 0, [0, 0, 0, 0, 0, 0, 0, 0]);
    [Resume(1, p), Write(8, 7), Resume(2, p)]
  }

  function Losing(): State<nat, nat> {
    State(TwoOnOneStack(), map c | c in TwoOnOneStack().cos :: map[], {})
  }

  lemma LosingIsCreated()
    ensures Created(Losing())
  {
    var m := TwoOnOneStack();
    LosingShape();
    LosingExclusive();
    hide Shape, Exclusive;
    assert forall c :: c in m.cos ==> c == 0 || c == 1 || c == 2;
    assert forall k :: k in m.stacks ==> k == 0 || k == 1;
  }

  lemma LosingThree()
    ensures Three(Losing().m, [0], {}) && 1 in Losing().own && Losing().own[1] == map[]
  {
  }

  lemma LosingExclusive()
    ensures Exclusive(TwoOnOneStack())
  {
    var m := TwoOnOneStack();
    assert forall c :: c in m.cos ==> c == 0 || c == 1 || c == 2;
    assert m.cos[0].Csm == 0 && m.cos[1].IsShareStack && m.cos[2].IsShareStack && m.cos[1].Csm == 1 && m.cos[2].Csm == 1;
    hide TwoOnOneStack;
  }

  lemma LosingShape()
    ensures Shape(TwoOnOneStack())
  {
    var m := TwoOnOneStack();
    assert CoShape(m, 0) && CoShape(m, 1) && CoShape(m, 2) && StackShape(m, 0) && StackShape(m, 1);
    hide CoShape, StackShape;
  }

  /** What the run needs to know of the machine: the coroutines of it, their stacks, and who runs. */
  ghost predicate OneOf(m: Machine<nat, nat>, started: set<nat>, c: nat) {
    && c in m.cos && CoShape(m, c) && m.cos[c].Csm == (if c == 0 then 0 else 1)
    && m.cos[c].IsShareStack == (c != 0) && !m.cos[c].IsEnd && m.cos[c].ISstart == (c in started)
    && StackOf(m, c).top == 8 && |StackOf(m, c).buffer| == 16 && m.pfn == TwoOnOneStack().pfn
  }

  ghost predicate Three(m: Machine<nat, nat>, call: seq<nat>, started: set<nat>) {
    m.call == call && m.cos.Keys == {0, 1, 2} && OneOf(m, started, 0) && OneOf(m, started, 1) && OneOf(m, started, 2)
  }

  lemma OneAfter(m: Machine<nat, nat>, a: Action<nat>, started: set<nat>, c: nat)
    requires Enabled(m, a) && (a.Write? || a.Resume?) && OneOf(m, started, c)
    ensures OneOf(Step(m, a), if a.Resume? then started + {a.co} else started, c)
  {
    hide Enabled, Step;
    StepFrame(m, a, c);
  }

  lemma ThreeAfter(s: State<nat, nat>, a: Action<nat>, call: seq<nat>, started: set<nat>)
    requires Inv(s) && Enabled(s.m, a) && (a.Write? || a.Resume?) && call != [] && Three(s.m, call, started)
    ensures Takes(s, a, Next(s, a)) && Inv(Next(s, a))
    ensures Three(Next(s, a).m, CallAfter(call, a), if a.Resume? then started + {a.co} else started)
  {
    StepKeeps(s, a);
    hide Enabled, Step, Inv;
    StepFrame(s.m, a, 0);
    OneAfter(s.m, a, started, 0);
    OneAfter(s.m, a, started, 1);
    OneAfter(s.m, a, started, 2);
    hide OneOf;
  }

  predicate IsEntry(a: Action<nat>, co: nat) {
    a.Resume? && a.co == co && a.p.rsp == 0 && a.p.ESP == 8 && |a.p.ret| == Word
  }

  lemma ThreeEnabled(s: State<nat, nat>, a: Action<nat>, call: seq<nat>, started: set<nat>)
    requires Inv(s) && Three(s.m, call, started) && call != [] && call[0] == 0 && |call| < 3
    requires a == Write(8, 7) || IsEntry(a, 1) || IsEntry(a, 2)
    ensures Enabled(s.m, a)
  {
    MachineOf(s);
    CallNames(s.m);
    assert OneOf(s.m, started, Running(s.m));
    hide MachineInv, Inv, CoShape;
  }

  lemma OccupantStays(s: State<nat, nat>, a: Action<nat>)
    requires Inv(s) && Three(s.m, [0, 1], {1}) && IsEntry(a, 2) && Enabled(s.m, a)
    ensures (1, 8) in LostBy(s.m, a)
  {
    assert CoInv(s.m, 1) by { MachineOf(s); }
    hide Inv, Enabled, MachineInv, CoShape;
  }

  lemma RunOfThree<C, S>(s0: State<C, S>, a0: Action<C>, s1: State<C, S>, a1: Action<C>, s2: State<C, S>, a2: Action<C>,
      s3: State<C, S>)
    requires Takes(s0, a0, s1) && Takes(s1, a1, s2) && Takes(s2, a2, s3)
    ensures Possible(s0, [a0, a1, a2]) && After(s0, [a0, a1, a2]) == s3
  {
    hide Inv, Enabled, Next;
    var acts := [a0, a1, a2];
    assert acts[1..] == [a1, a2] && acts[1..][1..] == [a2];
    assert Possible(s3, []);
    assert Possible(s2, [a2]);
    assert Possible(s1, [a1, a2]);
    assert After(s2, [a2]) == After(s3, [a2][1..]) == s3;
    assert After(s1, [a1, a2]) == After(s2, [a1, a2][1..]);
  }

  lemma TakesOwn<C, S>(s: State<C, S>, a: Action<C>, s': State<C, S>, c: C)
    requires Inv(s) && Takes(s, a, s') && c in s.own
    ensures s.m.call != [] && c in s'.own
    ensures s'.own[c] == if c != Running(s.m) then s.own[c]
                         else if a.Write? then Stored(s.own[c], a.at, a.b) else Above(s.own[c], GivesUp(a).value.ESP)
  {
    hide Inv, Enabled, Allowed, Step, LostBy, Above;
    AllowedIsEnabled(s, a);
    EnabledNames(s.m, a);
  }

  lemma LosesAByte(s0: State<nat, nat>, a0: Action<nat>, a1: Action<nat>, a2: Action<nat>)
    requires Inv(s0) && Three(s0.m, [0], {}) && 1 in s0.own && s0.own[1] == map[]
    requires IsEntry(a0, 1) && a1 == Write(8, 7) && IsEntry(a2, 2)
    ensures Possible(s0, [a0, a1, a2]) && LostAt8(After(s0, [a0, a1, a2]))
  {
    hide Step, ByteAt, MachineInv, Refines, Created, Enabled, LostBy, OneOf, Possible, After, Next, LostAt8;
    ThreeEnabled(s0, a0, [0], {});
    ThreeAfter(s0, a0, [0], {});
    var s1 := Next(s0, a0);
    TakesOwn(s0, a0, s1, 1);
    assert CallAfter([0], a0) == [0, 1] && {} + {a0.co} == {1};
    ThreeEnabled(s1, a1, [0, 1], {1});
    ThreeAfter(s1, a1, [0, 1], {1});
    var s2 := Next(s1, a1);
    TakesOwn(s1, a1, s2, 1);
    ThreeEnabled(s2, a2, [0, 1], {1});
    OccupantStays(s2, a2);
    ThreeAfter(s2, a2, [0, 1], {1});
    assert CallAfter([0, 1], a2) == [0, 1, 2];
    var s3 := Next(s2, a2);
    TakesOwn(s2, a2, s3, 1);
    RunOfThree(s0, a0, s1, a1, s2, a2, s3);
    LostByteRead(s2, a2);
  }

  /** Coroutine 1 stored 7 at offset 8 and finds 1 there. */
  ghost predicate LostAt8(r: State<nat, nat>) {
    && 1 in r.own && 8 in r.own[1] && r.own[1][8] == 7
    && 1 in r.m.cos && CoShape(r.m, 1) && ByteAt(r.m, 1, 8) == Some(1)
  }

  lemma LostByteRead(s: State<nat, nat>, a: Action<nat>)
    requires Inv(s) && Enabled(s.m, a) && IsEntry(a, 2) && (1, 8) in LostBy(s.m, a)
    requires var r := Next(s, a);
             Inv(r) && 1 in r.own && 8 in r.own[1] && r.own[1][8] == 7 && Three(r.m, [0, 1, 2], {1} + {2})
    ensures LostAt8(Next(s, a))
  {
    var r := Next(s, a);
    assert (1, 8) in r.lost;
    assert Refines(r, 1) && Reads(r, 1, 8) by { hide Step, Enabled, Next; }
    hide Step, Enabled, Inv, LostBy, ByteAt, Next;
  }

  /** Entering coroutine 2 for the first time overwrites a byte that coroutine 1 has just stored. */
  lemma FirstEntryLosesAByte()
    ensures Created(Losing()) && Possible(Losing(), LosingRun()) && LostAt8(After(Losing(), LosingRun()))
  {
    var s0 := Losing();
    LosingIsCreated();
    CreatedKeeps(s0);
    LosingThree();
    var run := LosingRun();
    assert run == [run[0], run[1], run[2]] && IsEntry(run[0], 1) && run[1] == Write(8, 7) && IsEntry(run[2], 2);
    hide Created, Inv, Three, TwoOnOneStack, LosingRun, Losing, Possible, After, IsEntry, LostAt8;
    LosesAByte(s0, run[0], run[1], run[2]);
  }

  lemma MachineOf<C, S>(s: State<C, S>)
    requires Inv(s)
    ensures MachineInv(s.m)
  {
  }
}
