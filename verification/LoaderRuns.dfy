/** What every run of the loader protocol keeps: one thread at a time in the loader's table,
    cancellation and thread creation off meanwhile, the caller's state given back, one
    constructor hook per load, and no schedule that gets stuck. */
module LoaderRuns {
  import opened LoaderLock

  datatype Event = Event(tid: Tid, action: Action)

  ghost predicate IsRun(w: World, run: seq<Event>)
    decreases |run|
  {
    run != [] ==>
      && Enabled(w, run[0].tid, run[0].action)
      && IsRun(Step(w, run[0].tid, run[0].action), run[1..])
  }

  ghost function After(w: World, run: seq<Event>): World
    requires IsRun(w, run)
    decreases |run|
  {
    if run == [] then w else After(Step(w, run[0].tid, run[0].action), run[1..])
  }

  lemma {:induction false} RunKeepsInv(w: World, run: seq<Event>)
    requires Inv(w) && IsRun(w, run)
    ensures Inv(After(w, run))
    decreases |run|
  {
    hide Inv, Enabled, Step;
    if run == [] {
    } else {
      StepKeepsInv(w, run[0].tid, run[0].action);
      RunKeepsInv(Step(w, run[0].tid, run[0].action), run[1..]);
    }
  }

  // ---- safety

  // Inside the loader's table by a call that names a file or a descriptor.
  predicate Inside(w: World, i: Tid) {
    i in w.threads && At(w.threads[i], InTable) && !Top(w.threads[i]).api.DlopenNull?
  }

  lemma TableIsGuarded(w: World, run: seq<Event>, i: Tid)
    requires Initial(w) && IsRun(w, run) && Inside(After(w, run), i)
    ensures var v := After(w, run);
            && v.writer == By(i) && v.inhibitor == By(i) && v.creating == {} && !v.threads[i].cancel
            && (forall j :: Inside(v, j) ==> j == i)
  {
    InitialInv(w);
    RunKeepsInv(w, run);
    var v := After(w, run);
    assert Settled(v, i);
    forall j | Inside(v, j)
      ensures j == i
    {
      assert Settled(v, j);
    }
  }

  // Thread creation is let go before the lock and stopped after it.
  lemma ReleasedInReverse(w: World, run: seq<Event>, i: Tid)
    requires Initial(w) && IsRun(w, run)
    ensures var v := After(w, run);
            && (v.inhibitor == By(i) ==> v.writer == By(i))
            && (v.writer == By(i) ==>
                  i in v.threads && Busy(v.threads[i])
                  && (v.inhibitor == By(i) <==> !At(v.threads[i], Inhibiting) && !At(v.threads[i], Unlocking)))
  {
    InitialInv(w);
    RunKeepsInv(w, run);
    var v := After(w, run);
    if i in v.threads {
      assert Settled(v, i);
    }
  }

  lemma InhibitorIsWriter(w: World)
    requires Inv(w) && w.inhibitor.By?
    ensures w.writer == w.inhibitor
  {
    assert Settled(w, w.inhibitor.tid);
  }

  // No thread waits for what it holds, however deep the constructors' calls are nested, nor
  // with cancellation on.
  lemma NoSelfWait(w: World, run: seq<Event>, i: Tid)
    requires Initial(w) && IsRun(w, run) && i in After(w, run).threads
    ensures var v := After(w, run);
            && (At(v.threads[i], Locking) ==> v.writer != By(i) && v.inhibitor != By(i) && i !in v.creating)
            && (At(v.threads[i], Inhibiting) ==> v.writer == By(i) && v.inhibitor == Nobody && i !in v.creating)
            && (At(v.threads[i], Locking) || At(v.threads[i], Inhibiting) ==> !v.threads[i].cancel)
  {
    InitialInv(w);
    RunKeepsInv(w, run);
    var v := After(w, run);
    assert Settled(v, i);
    if v.inhibitor.By? {
      InhibitorIsWriter(v);
    }
  }

  // The constructors' hook and whatever the constructors do run without either lock, and the
  // hook is called with cancellation still off.
  lemma HookRunsUnlocked(w: World, run: seq<Event>, i: Tid)
    requires Initial(w) && IsRun(w, run) && i in After(w, run).threads
    requires At(After(w, run).threads[i], Finished) || Free(After(w, run).threads[i])
    ensures After(w, run).writer != By(i) && After(w, run).inhibitor != By(i)
    ensures At(After(w, run).threads[i], Finished) ==> !After(w, run).threads[i].cancel
  {
    InitialInv(w);
    RunKeepsInv(w, run);
    assert Settled(After(w, run), i);
  }

  // ---- a null file takes no lock, and that alone is what lets two threads in

  ghost predicate Uses(run: seq<Event>, apis: set<Api>) {
    forall e :: e in run && e.action.Call? ==> e.action.api in apis
  }

  ghost predicate Made(w: World, apis: set<Api>) {
    forall i, k :: i in w.threads && 0 <= k < |w.threads[i].stack| ==> w.threads[i].stack[k].api in apis
  }

  lemma StepKeepsMade(w: World, i: Tid, a: Action, apis: set<Api>)
    requires Enabled(w, i, a) && Made(w, apis) && (a.Call? ==> a.api in apis)
    ensures Made(Step(w, i, a), apis)
  {
    if Busy(w.threads[i]) {
      assert Top(w.threads[i]).api in apis;
    }
  }

  lemma {:induction false} RunKeepsMade(w: World, run: seq<Event>, apis: set<Api>)
    requires IsRun(w, run) && Uses(run, apis) && Made(w, apis)
    ensures Made(After(w, run), apis)
    decreases |run|
  {
    hide Made, Enabled, Step;
    if run == [] {
    } else {
      assert run[0] in run;
      StepKeepsMade(w, run[0].tid, run[0].action, apis);
      assert forall e :: e in run[1..] ==> e in run;
      RunKeepsMade(Step(w, run[0].tid, run[0].action), run[1..], apis);
    }
  }

  predicate InTableAt(w: World, i: Tid) {
    i in w.threads && At(w.threads[i], InTable)
  }

  ghost predicate Exclusive(w: World, apis: set<Api>) {
    forall run: seq<Event>, i, j ::
      IsRun(w, run) && Uses(run, apis) && InTableAt(After(w, run), i) && InTableAt(After(w, run), j) ==> i == j
  }

  // Two threads that both pass a null file meet in the table.
  lemma NullFilesMeet(w: World, i: Tid, j: Tid) returns (run: seq<Event>)
    requires Initial(w) && i in w.threads && j in w.threads && i != j
    ensures IsRun(w, run) && Uses(run, {DlopenNull})
    ensures InTableAt(After(w, run), i) && InTableAt(After(w, run), j)
  {
    var e0, e1, e2, e3 := Event(i, Call(DlopenNull)), Event(i, Advance), Event(j, Call(DlopenNull)), Event(j, Advance);
    var w1 := Step(w, i, Call(DlopenNull));
    var w2 := Step(w1, i, Advance);
    var w3 := Step(w2, j, Call(DlopenNull));
    var w4 := Step(w3, j, Advance);
    run := [e0, e1, e2, e3];
    assert run[1..] == [e1, e2, e3] && [e1, e2, e3][1..] == [e2, e3] && [e2, e3][1..] == [e3] && [e3][1..] == [];
    assert IsRun(w4, []) && After(w4, []) == w4;
    assert IsRun(w3, [e3]) && After(w3, [e3]) == w4;
    assert IsRun(w2, [e2, e3]) && After(w2, [e2, e3]) == w4;
    assert IsRun(w1, [e1, e2, e3]) && After(w1, [e1, e2, e3]) == w4;
  }

  lemma ExclusiveIffNoNullFile(w: World, apis: set<Api>, i: Tid, j: Tid)
    requires Initial(w) && i in w.threads && j in w.threads && i != j
    ensures Exclusive(w, apis) <==> DlopenNull !in apis
  {
    if DlopenNull in apis {
      var run := NullFilesMeet(w, i, j);
      assert Uses(run, apis);
    } else {
      forall run: seq<Event>, a, b
        | IsRun(w, run) && Uses(run, apis) && InTableAt(After(w, run), a) && InTableAt(After(w, run), b)
        ensures a == b
      {
        RunKeepsMade(w, run, apis);
        var v := After(w, run);
        assert Top(v.threads[a]).api in apis && Top(v.threads[b]).api in apis;
        TableIsGuarded(w, run, a);
        assert Inside(v, b);
      }
    }
  }

  // ---- one hook for every load

  predicate IsLoad(w: World, e: Event) {
    && e.action == Leave(true) && e.tid in w.threads && At(w.threads[e.tid], InTable)
    && !Top(w.threads[e.tid]).api.DlopenNull?
  }

  predicate IsHook(w: World, e: Event) {
    e.action == Advance && e.tid in w.threads && At(w.threads[e.tid], Finished)
  }

  // How many modules the loader gave thread i in a run, and how many hooks i called.
  ghost function Loads(w: World, run: seq<Event>, i: Tid): nat
    requires IsRun(w, run)
    decreases |run|
  {
    if run == [] then 0
    else (if run[0].tid == i && IsLoad(w, run[0]) then 1 else 0)
         + Loads(Step(w, run[0].tid, run[0].action), run[1..], i)
  }

  ghost function Hooks(w: World, run: seq<Event>, i: Tid): nat
    requires IsRun(w, run)
    decreases |run|
  {
    if run == [] then 0
    else (if run[0].tid == i && IsHook(w, run[0]) then 1 else 0)
         + Hooks(Step(w, run[0].tid, run[0].action), run[1..], i)
  }

  // The hook that a thread still owes.
  function Debt(t: Thread): nat {
    if Busy(t) && Top(t).loaded && Top(t).ctors == 0 then 1 else 0
  }

  function Owed(w: World, i: Tid): nat {
    if i in w.threads then Debt(w.threads[i]) else 0
  }

  lemma PopOwes(t: Thread, cancel: bool)
    requires GoodThread(t) && Busy(t)
    ensures Debt(Pop(t).(cancel := cancel)) == 0
  {
    if |t.stack| > 1 {
      assert GoodFrame(t.stack[|t.stack| - 2]);
    }
  }

  lemma AdvancedOwes(t: Thread)
    requires GoodThread(t) && Busy(t) && !At(t, Building) && !At(t, InTable)
    ensures Debt(t) == Debt(Advanced(t)) + (if At(t, Finished) then 1 else 0)
  {
    if At(t, Restoring) {
      PopOwes(t, Top(t).saved);
    }
  }

  lemma LeftLoaderOwes(t: Thread, found: bool)
    requires GoodThread(t) && At(t, InTable)
    ensures Debt(t) + (if found && !Top(t).api.DlopenNull? then 1 else 0) == Debt(LeftLoader(t, found))
  {
    if Top(t).api.DlopenNull? {
      PopOwes(t, t.cancel);
    }
  }

  lemma StepOwes(w: World, e: Event, i: Tid)
    requires Inv(w) && Enabled(w, e.tid, e.action)
    ensures Owed(w, i) + (if e.tid == i && IsLoad(w, e) then 1 else 0)
         == Owed(Step(w, e.tid, e.action), i) + (if e.tid == i && IsHook(w, e) then 1 else 0)
  {
    hide Advanced, LeftLoader;
    if e.tid == i {
      assert Settled(w, i);
      var t := w.threads[i];
      match e.action
      case Advance => AdvancedOwes(t);
      case Leave(found) => LeftLoaderOwes(t, found);
      case _ =>
    }
  }

  lemma {:induction false} HooksMatchLoads(w: World, run: seq<Event>, i: Tid)
    requires Inv(w) && IsRun(w, run)
    ensures Owed(w, i) + Loads(w, run, i) == Owed(After(w, run), i) + Hooks(w, run, i)
    decreases |run|
  {
    hide Inv, Enabled, Step, Owed, IsLoad, IsHook;
    if run == [] {
    } else {
      StepOwes(w, run[0], i);
      StepKeepsInv(w, run[0].tid, run[0].action);
      HooksMatchLoads(Step(w, run[0].tid, run[0].action), run[1..], i);
    }
  }

  lemma OneHookPerLoad(w: World, run: seq<Event>, i: Tid)
    requires Initial(w) && IsRun(w, run)
    ensures Hooks(w, run, i) <= Loads(w, run, i) <= Hooks(w, run, i) + 1
    ensures i in After(w, run).threads && Free(After(w, run).threads[i]) ==> Loads(w, run, i) == Hooks(w, run, i)
  {
    InitialInv(w);
    HooksMatchLoads(w, run, i);
    RunKeepsInv(w, run);
    if i in After(w, run).threads {
      assert Settled(After(w, run), i);
    }
  }

  // ---- a call gives its caller's state back

  // In a run, thread i stays inside the call that its stack holds at depth d until the end.
  ghost predicate Within(w: World, run: seq<Event>, i: Tid, d: nat)
    requires IsRun(w, run)
    decreases |run|
  {
    run != [] ==>
      && i in w.threads && |w.threads[i].stack| > d
      && Within(Step(w, run[0].tid, run[0].action), run[1..], i, d)
  }

  // A thread in a call that began with `entry`, or in one made from there, above `below`.
  predicate Above(t: Thread, below: seq<Frame>, entry: bool) {
    |t.stack| > |below| && t.stack[..|below|] == below && t.stack[|below|].entry == entry
  }

  predicate Inner(w: World, i: Tid, below: seq<Frame>, entry: bool) {
    i in w.threads && Above(w.threads[i], below, entry)
  }

  predicate Returned(w: World, i: Tid, below: seq<Frame>, entry: bool) {
    i in w.threads && w.threads[i] == Thread(below, entry)
  }

  lemma WithTopStaysAbove(t: Thread, f: Frame, cancel: bool, below: seq<Frame>, entry: bool)
    requires Above(t, below, entry) && f.entry == Top(t).entry
    ensures Above(WithTop(t, f).(cancel := cancel), below, entry)
  {
    var v := WithTop(t, f);
    assert v.stack[..|below|] == t.stack[..|below|];
  }

  lemma PopReturns(t: Thread, cancel: bool, below: seq<Frame>, entry: bool)
    requires Above(t, below, entry) && cancel == Top(t).entry
    ensures var v := Pop(t).(cancel := cancel); Above(v, below, entry) || v == Thread(below, entry)
  {
    var v := Pop(t);
    if |v.stack| > |below| {
      assert v.stack[..|below|] == t.stack[..|below|];
    } else {
      assert v.stack == t.stack[..|below|];
    }
  }

  lemma AdvancedAbove(t: Thread, below: seq<Frame>, entry: bool)
    requires GoodThread(t) && Busy(t) && Above(t, below, entry) && !At(t, Building) && !At(t, InTable)
    ensures Above(Advanced(t), below, entry) || Advanced(t) == Thread(below, entry)
  {
    hide Above;
    if At(t, Restoring) {
      PopReturns(t, Top(t).saved, below, entry);
    } else {
      WithTopStaysAbove(t, Top(Advanced(t)), Advanced(t).cancel, below, entry);
    }
  }

  lemma LeftLoaderAbove(t: Thread, found: bool, below: seq<Frame>, entry: bool)
    requires GoodThread(t) && At(t, InTable) && Above(t, below, entry)
    ensures Above(LeftLoader(t, found), below, entry) || LeftLoader(t, found) == Thread(below, entry)
  {
    hide Above;
    if Top(t).api.DlopenNull? {
      PopReturns(t, t.cancel, below, entry);
    } else {
      WithTopStaysAbove(t, Top(LeftLoader(t, found)), t.cancel, below, entry);
    }
  }

  lemma CalledAbove(t: Thread, api: Api, below: seq<Frame>, entry: bool)
    requires Above(t, below, entry)
    ensures Above(Called(t, api), below, entry)
  {
    assert Called(t, api).stack[..|below|] == t.stack[..|below|];
  }

  lemma StepInner(w: World, e: Event, i: Tid, below: seq<Frame>, entry: bool)
    requires Inv(w) && Enabled(w, e.tid, e.action) && Inner(w, i, below, entry)
    ensures var v := Step(w, e.tid, e.action); Inner(v, i, below, entry) || Returned(v, i, below, entry)
  {
    hide Advanced, LeftLoader, Called, Built, GoodThread;
    if e.tid == i {
      assert Settled(w, i);
      var t := w.threads[i];
      match e.action
      case Call(api) => CalledAbove(t, api, below, entry);
      case Advance => AdvancedAbove(t, below, entry);
      case Build(vector) => BuiltAbove(t, vector, below, entry);
      case Leave(found) => LeftLoaderAbove(t, found, below, entry);
      case _ =>
    }
  }

  lemma BuiltAbove(t: Thread, vector: bool, below: seq<Frame>, entry: bool)
    requires Busy(t) && Above(t, below, entry)
    ensures Above(Built(t, vector), below, entry)
  {
    WithTopStaysAbove(t, Top(Built(t, vector)), t.cancel, below, entry);
  }

  lemma {:induction false} InnerReturns(w: World, run: seq<Event>, i: Tid, below: seq<Frame>, entry: bool)
    requires Inv(w) && IsRun(w, run) && Within(w, run, i, |below|) && Inner(w, i, below, entry)
    ensures Inner(After(w, run), i, below, entry) || Returned(After(w, run), i, below, entry)
    decreases |run|
  {
    hide Inv, Enabled, Step, Inner, Returned;
    if run == [] {
    } else {
      var v := Step(w, run[0].tid, run[0].action);
      StepInner(w, run[0], i, below, entry);
      StepKeepsInv(w, run[0].tid, run[0].action);
      if run[1..] == [] {
      } else {
        assert Inner(v, i, below, entry) by { NotReturned(v, i, below, entry); }
        InnerReturns(v, run[1..], i, below, entry);
      }
    }
  }

  lemma NotReturned(w: World, i: Tid, below: seq<Frame>, entry: bool)
    requires i in w.threads && |w.threads[i].stack| > |below|
    ensures !Returned(w, i, below, entry)
  {}

  // From any reachable state: when a call returns, whatever the thread and the constructors
  // did meanwhile, the thread's other calls and its cancellation state are as at the call.
  lemma CallGivesBack(w: World, i: Tid, api: Api, run: seq<Event>)
    requires Inv(w) && Enabled(w, i, Call(api))
    requires var v := Step(w, i, Call(api)); IsRun(v, run) && Within(v, run, i, |w.threads[i].stack|)
    ensures var u := After(Step(w, i, Call(api)), run);
            i in u.threads && (|u.threads[i].stack| <= |w.threads[i].stack| ==> u.threads[i] == w.threads[i])
  {
    var t := w.threads[i];
    var v := Step(w, i, Call(api));
    assert v.threads[i].stack[..|t.stack|] == t.stack;
    StepKeepsInv(w, i, Call(api));
    InnerReturns(v, run, i, t.stack, t.cancel);
  }
}
