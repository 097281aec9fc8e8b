/** The loader protocol never gets stuck: as long as no new call is made, every schedule of
    the calls under way comes to an end within a known number of steps, and the only states
    that it can end in have every call returned and every lock free. */
module LoaderProgress {
  import opened LoaderLock
  import opened LoaderRuns

  // Not a new call, and not something the program or a constructor does on its own.
  predicate Drains(a: Action) {
    a.Advance? || a.Build? || a.Leave? || a.EndCreate?
  }

  ghost predicate IsDrain(w: World, run: seq<Event>) {
    IsRun(w, run) && forall e :: e in run ==> Drains(e.action)
  }

  ghost predicate Quiet(w: World) {
    && w.writer == Nobody && w.inhibitor == Nobody && w.creating == {}
    && forall i :: i in w.threads ==> !Busy(w.threads[i])
  }

  // ---- some step is always possible

  lemma {:induction false} FreshTid(s: set<Tid>) returns (n: Tid)
    ensures forall i :: i in s ==> i < n
    decreases |s|
  {
    if s == {} {
      n := 0;
    } else {
      var i :| i in s;
      var m := FreshTid(s - {i});
      n := if m <= i then i + 1 else m;
      assert forall j :: j in s ==> j == i || j in s - {i};
    }
  }

  // The step that a call not waiting for anything takes next.
  lemma ReadyStep(w: World, i: Tid) returns (a: Action)
    requires Inv(w) && i in w.threads && Busy(w.threads[i]) && !Waits(w, Top(w.threads[i]).pc)
    requires w.creating == {}
    ensures Enabled(w, i, a) && Drains(a)
  {
    a := if At(w.threads[i], Building) then Build(true)
         else if At(w.threads[i], InTable) then Leave(true) else Advance;
  }

  lemma NoDeadlock(w: World) returns (e: Event)
    requires Inv(w) && !Quiet(w)
    ensures Enabled(w, e.tid, e.action) && Drains(e.action)
  {
    if w.creating != {} {
      var i :| i in w.creating;
      var child := FreshTid(w.threads.Keys);
      e := Event(i, EndCreate(child));
    } else if w.inhibitor.By? {
      InhibitorIsWriter(w);
      var i := w.inhibitor.tid;
      assert Settled(w, i);
      var a := ReadyStep(w, i);
      e := Event(i, a);
    } else {
      var i: Tid :| i in w.threads && Busy(w.threads[i]) && (w.writer.By? ==> i == w.writer.tid) by {
        if w.writer.By? {
          assert Settled(w, w.writer.tid);
        }
      }
      assert Settled(w, i);
      var a := ReadyStep(w, i);
      e := Event(i, a);
    }
  }

  // ---- how much is left to do

  function StepsLeft(pc: Pc): nat {
    match pc
    case Start => 12
    case Locking => 11
    case Inhibiting => 10
    case Building => 9
    case Entering => 8
    case InTable => 7
    case Freeing => 6
    case Releasing => 5
    case Unlocking => 4
    case Finished => 3
    case InCtors => 2
    case Restoring => 1
  }

  function StackWork(stack: seq<Frame>): nat {
    if stack == [] then 0 else StackWork(stack[..|stack| - 1]) + StepsLeft(stack[|stack| - 1].pc)
  }

  // The steps that the calls of the threads below n have left, at most.
  function Work(threads: map<Tid, Thread>, n: nat): nat {
    if n == 0 then 0
    else Work(threads, n - 1) + (if n - 1 in threads then StackWork(threads[n - 1].stack) else 0)
  }

  ghost predicate Below(w: World, n: nat) {
    forall i :: i in w.threads && Busy(w.threads[i]) ==> i < n
  }

  function Rank(w: World, n: nat): nat {
    Work(w.threads, n) + |w.creating|
  }

  lemma WithTopWork(t: Thread, f: Frame)
    requires Busy(t)
    ensures StackWork(WithTop(t, f).stack) == StackWork(t.stack) - StepsLeft(Top(t).pc) + StepsLeft(f.pc)
  {
    var v := WithTop(t, f);
    assert v.stack[..|v.stack| - 1] == t.stack[..|t.stack| - 1];
  }

  lemma PopWork(t: Thread)
    requires Busy(t)
    ensures StackWork(Pop(t).stack) < StackWork(t.stack)
  {}

  lemma AdvancedWork(t: Thread)
    requires Busy(t) && !At(t, Building) && !At(t, InTable)
    ensures StackWork(Advanced(t).stack) < StackWork(t.stack)
  {
    hide StackWork;
    if At(t, Restoring) {
      PopWork(t);
    } else {
      WithTopWork(t, Top(Advanced(t)));
    }
  }

  lemma LeftLoaderWork(t: Thread, found: bool)
    requires At(t, InTable)
    ensures StackWork(LeftLoader(t, found).stack) < StackWork(t.stack)
  {
    hide StackWork;
    if Top(t).api.DlopenNull? {
      PopWork(t);
    } else {
      WithTopWork(t, Top(LeftLoader(t, found)));
    }
  }

  lemma BuiltWork(t: Thread, vector: bool)
    requires At(t, Building)
    ensures StackWork(Built(t, vector).stack) < StackWork(t.stack)
  {
    hide StackWork;
    WithTopWork(t, Top(Built(t, vector)));
  }

  // One thread changed.
  lemma {:induction false} PutWork(threads: map<Tid, Thread>, i: Tid, t: Thread, n: nat)
    ensures Work(threads[i := t], n)
         == Work(threads, n)
            - (if i < n && i in threads then StackWork(threads[i].stack) else 0)
            + (if i < n then StackWork(t.stack) else 0)
  {
    hide StackWork;
    if n == 0 {
    } else {
      PutWork(threads, i, t, n - 1);
    }
  }

  // What a draining step makes of its own thread.
  function Drained(t: Thread, a: Action): Thread
    requires Busy(t)
  {
    match a
    case Advance => Advanced(t)
    case Build(vector) => Built(t, vector)
    case Leave(found) => LeftLoader(t, found)
    case _ => t
  }

  lemma DrainedWork(w: World, e: Event)
    requires Enabled(w, e.tid, e.action) && Drains(e.action) && !e.action.EndCreate?
    ensures StackWork(Drained(w.threads[e.tid], e.action).stack) < StackWork(w.threads[e.tid].stack)
    ensures var v := Step(w, e.tid, e.action);
            v.threads == w.threads[e.tid := Drained(w.threads[e.tid], e.action)] && v.creating == w.creating
  {
    hide StackWork, Advanced, Built, LeftLoader;
    var t := w.threads[e.tid];
    match e.action
    case Advance => AdvancedWork(t);
    case Build(vector) => BuiltWork(t, vector);
    case Leave(found) => LeftLoaderWork(t, found);
  }

  lemma StepRanks(w: World, e: Event, n: nat)
    requires Enabled(w, e.tid, e.action) && Drains(e.action) && Below(w, n)
    ensures var v := Step(w, e.tid, e.action); Below(v, n) && Rank(v, n) < Rank(w, n)
  {
    hide StackWork, Work, Drained, Advanced, Built, LeftLoader;
    if e.action.EndCreate? {
      EndCreateRanks(w, e.tid, e.action.child, n);
    } else {
      var t := w.threads[e.tid];
      DrainedWork(w, e);
      PutWork(w.threads, e.tid, Drained(t, e.action), n);
    }
  }

  lemma EndCreateRanks(w: World, i: Tid, child: Tid, n: nat)
    requires Enabled(w, i, EndCreate(child)) && Below(w, n)
    ensures var v := Step(w, i, EndCreate(child)); Below(v, n) && Rank(v, n) < Rank(w, n)
  {
    PutWork(w.threads, child, Thread([], true), n);
    assert |w.creating - {i}| == |w.creating| - 1;
  }

  // ---- every schedule ends

  lemma {:induction false} DrainIsBounded(w: World, run: seq<Event>, n: nat)
    requires Below(w, n) && IsDrain(w, run)
    ensures |run| + Rank(After(w, run), n) <= Rank(w, n)
    decreases |run|
  {
    hide Enabled, Step, Rank, Below;
    if run == [] {
    } else {
      assert run[0] in run;
      StepRanks(w, run[0], n);
      assert forall e :: e in run[1..] ==> e in run;
      DrainIsBounded(Step(w, run[0].tid, run[0].action), run[1..], n);
    }
  }

  // A run that cannot be drained further.
  ghost predicate Maximal(w: World, run: seq<Event>) {
    IsDrain(w, run) && forall e: Event :: Drains(e.action) ==> !Enabled(After(w, run), e.tid, e.action)
  }

  lemma MaximalIffQuiet(w: World, run: seq<Event>)
    requires Inv(w) && IsDrain(w, run)
    ensures Maximal(w, run) <==> Quiet(After(w, run))
  {
    RunKeepsInv(w, run);
    var v := After(w, run);
    if Quiet(v) {
      assert forall e: Event :: Drains(e.action) ==> !Enabled(v, e.tid, e.action);
    } else {
      var e := NoDeadlock(v);
      assert Enabled(v, e.tid, e.action);
    }
  }

  /** From a state of any run, the schedules of the calls under way are bounded in length, and
      the ones that cannot be prolonged are those that finished them all and freed both locks. */
  lemma EveryScheduleFinishes(w: World) returns (bound: nat)
    requires Inv(w)
    ensures forall run :: IsDrain(w, run) ==> |run| <= bound && (Maximal(w, run) <==> Quiet(After(w, run)))
  {
    var n := FreshTid(w.threads.Keys);
    bound := Rank(w, n);
    hide Maximal, Quiet, Rank, Inv;
    forall run | IsDrain(w, run)
      ensures |run| <= bound && (Maximal(w, run) <==> Quiet(After(w, run)))
    {
      DrainIsBounded(w, run, n);
      MaximalIffQuiet(w, run);
    }
  }

  lemma {:induction false} FinishWithin(w: World, n: nat) returns (run: seq<Event>)
    requires Inv(w) && Below(w, n)
    ensures IsDrain(w, run) && Quiet(After(w, run))
    decreases Rank(w, n)
  {
    run := [];
    if !Quiet(w) {
      hide Inv, Quiet, Enabled, Step, Rank, Below;
      var e := NoDeadlock(w);
      StepRanks(w, e, n);
      StepKeepsInv(w, e.tid, e.action);
      var rest := FinishWithin(Step(w, e.tid, e.action), n);
      run := [e] + rest;
      assert run[0] == e && run[1..] == rest;
    }
  }

  /** Such a schedule exists, too. */
  lemma SomeScheduleFinishes(w: World) returns (run: seq<Event>)
    requires Inv(w)
    ensures IsDrain(w, run) && Quiet(After(w, run))
  {
    var n := FreshTid(w.threads.Keys);
    run := FinishWithin(w, n);
  }
}
