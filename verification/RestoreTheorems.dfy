/** When a switch restores a copy, and to whom control goes back. */
module RestoreTheorems {
  import opened Options
  import opened SharedStack
  import opened CoroutineCalls
  import opened PrivateStacks
  import opened StackTheorems

  // ---------- the restore guard ----------

  lemma SwapGuard<C, S>(m: Machine<C, S>, pending: C, current: C, p: Point, first: bool)
    requires CanSwap(m, pending, current, p, first) && m.cos[pending].IsShareStack
    ensures CoShape(m, pending)
    ensures var r := SwapCo(m, pending, current, p, first);
            r.using_Co == Some(pending) && r.prev_Co == StackOf(m, pending).current_co
  {
    assert CoShape(m, pending);
    SwapShape(m, pending, current, p);
    SwitchOutKeeps(m, current, p, pending);
    OccupyKinds(SwitchOut(m, current, p), pending);
    hide SwitchOut, Occupy, Shape, SameKinds;
  }

  /** The guard of the switch that gives control to c. */
  lemma GuardStep<C, S>(m: Machine<C, S>, a: Action<C>, c: C)
    requires Enabled(m, a) && !a.Write? && OnShared(m, c) && IsRunning(Step(m, a), c)
    requires StackOf(m, c).current_co.Some?
    ensures MustRestore(Step(m, a)) <==> !Occupies(m, c)
  {
    hide SwapCo, Shape, Exclusive, CanSwap, MachineInv, Enabled;
    EnabledNames(m, a);
    StepFrame(m, a, c);
    match a
    case Resume(co, p) =>
      ResumeReady(m, co, p);
      BeforeResumeKeeps(m, co, c);
      SwapGuard(BeforeResume(m, co), co, Running(m), p, !m.cos[co].ISstart);
    case Yield(p) =>
      YieldReady(m, p);
      SwapGuard(Popped(m), m.call[|m.call| - 2], Running(m), p, false);
    case Finish(p) =>
      FinishReady(m, p);
      YieldReady(Ended(m), p);
      SwapGuard(Popped(Ended(m)), m.call[|m.call| - 2], Running(m), p, false);
  }

  /** Before some step of the run another coroutine occupies the stack of c. */
  ghost predicate Taken<C, S>(s: State<C, S>, acts: seq<Action<C>>, c: C)
    decreases |acts|
  {
    acts != [] && ((OnShared(s.m, c) && !Occupies(s.m, c)) || Taken(Next(s, acts[0]), acts[1..], c))
  }

  /** For a started coroutine that does not run, the restore guard of the switch that lets it run again
      fires exactly when another coroutine took its stack in the meantime. */
  lemma {:induction false} GuardFiresIff<C, S>(s: State<C, S>, acts: seq<Action<C>>, c: C)
    requires Inv(s) && Possible(s, acts) && OnShared(s.m, c)
    requires acts != [] && Absent(s, acts, c) && IsRunning(After(s, acts).m, c)
    ensures MustRestore(After(s, acts).m) <==> Taken(s, acts, c)
    decreases |acts|
  {
    TakeStep(s, acts[0]);
    SharedStays(s.m, acts[0], c);
    HasOccupant(s, c);
    hide Inv, Allowed, Next, Enabled, Step, OnShared, MustRestore;
    var t := Next(s, acts[0]);
    if acts[1..] == [] {
      WriteKeepsRunning(s.m, acts[0], c);
      GuardStep(s.m, acts[0], c);
    } else {
      if !Occupies(s.m, c) {
        OccupiesAfter(s.m, acts[0], c);
      }
      GuardFiresIff(t, acts[1..], c);
    }
  }

  lemma WriteKeepsRunning<C, S>(m: Machine<C, S>, a: Action<C>, c: C)
    requires Enabled(m, a) && !IsRunning(m, c) && IsRunning(Step(m, a), c)
    ensures !a.Write?
  {
    EnabledNames(m, a);
    StepFrame(m, a, Running(m));
    hide Enabled, Step, MachineInv;
  }

  lemma HasOccupant<C, S>(s: State<C, S>, c: C)
    requires Inv(s) && OnShared(s.m, c)
    ensures StackOf(s.m, c).current_co.Some?
  {
    hide Refines;
    assert CoInv(s.m, c);
  }

  // ---------- the call stack ----------

  /** In every state of the run the call stack has at least n entries. */
  ghost predicate AtLeast<C, S>(s: State<C, S>, acts: seq<Action<C>>, n: nat)
    decreases |acts|
  {
    n <= |s.m.call| && (acts != [] ==> AtLeast(Next(s, acts[0]), acts[1..], n))
  }

  lemma StepCall<C, S>(s: State<C, S>, a: Action<C>)
    requires Inv(s) && Allowed(s.m, a)
    ensures s.m.call != [] && Next(s, a).m.call == CallAfter(s.m.call, a)
    ensures Next(s, a).m.call != [] && Next(s, a).m.call[0] == s.m.call[0]
  {
    StepIsPrivate(s, a);
    AllowedIsEnabled(s, a);
    EnabledNames(s.m, a);
    hide Inv, Enabled, Allowed, Next, MachineInv;
  }

  lemma PrefixStays<C>(call: seq<C>, a: Action<C>, n: nat)
    requires call != [] && n <= |call| && n <= |CallAfter(call, a)|
    ensures CallAfter(call, a)[..n] == call[..n]
  {
  }

  /** While the call stack does not shrink below n entries, its first n stay. */
  lemma {:induction false} CallersStay<C, S>(s: State<C, S>, acts: seq<Action<C>>, n: nat)
    requires Inv(s) && Possible(s, acts) && AtLeast(s, acts, n)
    ensures n <= |s.m.call| && n <= |After(s, acts).m.call| && After(s, acts).m.call[..n] == s.m.call[..n]
    decreases |acts|
  {
    hide Inv, Enabled, Allowed, Next;
    if acts != [] {
      TakeStep(s, acts[0]);
      StepCall(s, acts[0]);
      CallersStay(Next(s, acts[0]), acts[1..], n);
      PrefixStays(s.m.call, acts[0], n);
    }
  }

  /** Slot 0 of the call stack is the main coroutine for ever, and the stack stays within its array. */
  lemma {:induction false} MainStays<C, S>(s: State<C, S>, acts: seq<Action<C>>)
    requires Inv(s) && Possible(s, acts)
    ensures var r := After(s, acts).m.call;
            s.m.call != [] && r != [] && r[0] == s.m.call[0] && |r| <= 256
    decreases |acts|
  {
    StaysWithin(s);
    hide Inv, Enabled, Allowed, Next;
    if acts != [] {
      TakeStep(s, acts[0]);
      StepCall(s, acts[0]);
      MainStays(Next(s, acts[0]), acts[1..]);
    }
  }

  lemma StaysWithin<C, S>(s: State<C, S>)
    requires Inv(s)
    ensures s.m.call != [] && |s.m.call| <= MaximumNumberOfCoroutinesAllowed
  {
    hide Refines;
  }

  lemma {:induction false} AfterOneMore<C, S>(s: State<C, S>, acts: seq<Action<C>>, a: Action<C>)
    requires Possible(s, acts + [a])
    ensures Possible(s, acts) && Allowed(After(s, acts).m, a) && After(s, acts + [a]) == Next(After(s, acts), a)
    decreases |acts|
  {
    hide Allowed, Next;
    if acts == [] {
      assert [] + [a] == [a] && [a][1..] == [];
    } else {
      assert (acts + [a])[1..] == acts[1..] + [a];
      AfterOneMore(Next(s, acts[0]), acts[1..], a);
    }
  }

  /** Whatever a coroutine does between being resumed and stopping, it is the one that stops, and control
      goes back to whoever resumed it last. */
  lemma ReturnsToResumer<C, S>(s: State<C, S>, acts: seq<Action<C>>, stop: Action<C>)
    requires Inv(s) && Possible(s, acts + [stop]) && acts != [] && acts[0].Resume? && (stop.Yield? || stop.Finish?)
    requires AtLeast(Next(s, acts[0]), acts[1..], |s.m.call| + 1) && |After(s, acts).m.call| == |s.m.call| + 1
    ensures IsRunning(After(s, acts).m, acts[0].co) && After(s, acts + [stop]).m.call == s.m.call
  {
    AfterOneMore(s, acts, stop);
    RunKeeps(s, acts);
    assert Possible(Next(s, acts[0]), acts[1..]) && After(s, acts) == After(Next(s, acts[0]), acts[1..]);
    hide Inv, Enabled, Allowed, Next, Possible, After, AtLeast, CallAfter;
    assert Allowed(s.m, acts[0]) by { FirstAllowed(s, acts); }
    TakeStep(s, acts[0]);
    StepCall(s, acts[0]);
    var t := After(s, acts);
    CallersStay(Next(s, acts[0]), acts[1..], |s.m.call| + 1);
    StepCall(t, stop);
    SameCaller(s.m.call, acts[0], t.m.call, stop, Next(s, acts[0]).m.call);
  }

  lemma SameCaller<C>(call: seq<C>, first: Action<C>, top: seq<C>, stop: Action<C>, below: seq<C>)
    requires call != [] && first.Resume? && (stop.Yield? || stop.Finish?) && below == CallAfter(call, first)
    requires |top| == |call| + 1 && |below| >= |top| && top[..|top|] == below[..|top|]
    ensures top[|top| - 1] == first.co && CallAfter(top, stop) == call
  {
    assert top == call + [first.co];
  }

  lemma FirstAllowed<C, S>(s: State<C, S>, acts: seq<Action<C>>)
    requires Possible(s, acts) && acts != []
    ensures Allowed(s.m, acts[0])
  {
  }

  // ---------- the end of a coroutine ----------

  /** Whoever runs after a step ran before it, or has not ended and is not the one that finishes. */
  lemma RunnerAfter<C, S>(m: Machine<C, S>, a: Action<C>, c: C)
    requires Allowed(m, a) && CallAfter(m.call, a) != [] && CallAfter(m.call, a)[|CallAfter(m.call, a)| - 1] == c
    ensures if a.Write? then IsRunning(m, c) else c in m.cos && !m.cos[c].IsEnd && (a.Finish? ==> !IsRunning(m, c))
  {
  }

  lemma StaysEnded<C, S>(s: State<C, S>, a: Action<C>, c: C)
    requires Inv(s) && Allowed(s.m, a) && c in s.m.cos
    requires s.m.cos[c].IsEnd && !IsRunning(s.m, c)
    ensures var t := Next(s, a).m; c in t.cos && t.cos[c].IsEnd && !IsRunning(t, c)
  {
    TakeStep(s, a);
    StepCall(s, a);
    EndStays(s.m, a, c);
    hide Inv, Enabled, Step, Next, Allowed;
    if IsRunning(Next(s, a).m, c) {
      RunnerAfter(s.m, a, c);
    }
  }

  lemma EndStays<C, S>(m: Machine<C, S>, a: Action<C>, c: C)
    requires Enabled(m, a) && c in m.cos && m.cos[c].IsEnd
    ensures c in Step(m, a).cos && Step(m, a).cos[c].IsEnd
  {
    hide Enabled, Step;
    StepFrame(m, a, c);
  }

  lemma {:induction false} EndedNeverRuns<C, S>(s: State<C, S>, acts: seq<Action<C>>, c: C)
    requires Inv(s) && Possible(s, acts) && c in s.m.cos && s.m.cos[c].IsEnd && !IsRunning(s.m, c)
    ensures !IsRunning(After(s, acts).m, c)
    decreases |acts|
  {
    hide Inv, Allowed, Next;
    if acts != [] {
      TakeStep(s, acts[0]);
      StaysEnded(s, acts[0], c);
      EndedNeverRuns(Next(s, acts[0]), acts[1..], c);
    }
  }

  /** A coroutine whose function has returned does not get control again. */
  lemma FinishedNeverRuns<C, S>(s: State<C, S>, p: Point, acts: seq<Action<C>>, c: C)
    requires Inv(s) && Possible(s, [Finish(p)] + acts) && IsRunning(s.m, c)
    ensures !IsRunning(After(s, [Finish(p)] + acts).m, c)
  {
    var run := [Finish(p)] + acts;
    assert run[0] == Finish(p) && run[1..] == acts;
    FirstAllowed(s, run);
    TakeStep(s, Finish(p));
    JustEnded(s, p, c);
    assert Possible(Next(s, Finish(p)), acts) && After(s, run) == After(Next(s, Finish(p)), acts);
    hide Inv, Allowed, Next;
    EndedNeverRuns(Next(s, Finish(p)), acts, c);
  }

  lemma JustEnded<C, S>(s: State<C, S>, p: Point, c: C)
    requires Inv(s) && Allowed(s.m, Finish(p)) && IsRunning(s.m, c)
    ensures var t := Next(s, Finish(p)).m; c in t.cos && t.cos[c].IsEnd && !IsRunning(t, c)
  {
    RunningStarted(s.m);
    TakeStep(s, Finish(p));
    StepCall(s, Finish(p));
    hide Inv, Enabled, Step, Next, Allowed;
    StepFrame(s.m, Finish(p), c);
    if IsRunning(Next(s, Finish(p)).m, c) {
      RunnerAfter(s.m, Finish(p), c);
    }
  }
}
