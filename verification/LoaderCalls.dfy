/** What becomes of one call of the loader protocol between its start and its return, in terms
    of the events of a run: whether it enters the loader, how often, and whether the hook runs. */
module LoaderCalls {
  import opened LoaderLock
  import opened LoaderRuns

  // How often a path vector was built or could not be, the loader was left, a module was
  // got from it, and the hook was called.
  datatype Tally = Tally(built: nat, failed: nat, left: nat, loads: nat, hooks: nat) {
    function Plus(n: Tally): Tally {
      Tally(built + n.built, failed + n.failed, left + n.left, loads + n.loads, hooks + n.hooks)
    }
  }

  const NOTHING := Tally(0, 0, 0, 0, 0)

  // What an event adds for the call that thread i has at depth d, when this is its innermost.
  function Counted(w: World, e: Event, i: Tid, d: nat): Tally {
    if e.tid != i || i !in w.threads || |w.threads[i].stack| != d + 1 then NOTHING
    else
      match e.action
      case Build(vector) => if vector then NOTHING.(built := 1) else NOTHING.(failed := 1)
      case Leave(found) => NOTHING.(left := 1, loads := if found then 1 else 0)
      case Advance => NOTHING.(hooks := if At(w.threads[i], Finished) then 1 else 0)
      case _ => NOTHING
  }

  ghost function Total(w: World, run: seq<Event>, i: Tid, d: nat): Tally
    requires IsRun(w, run)
    decreases |run|
  {
    if run == [] then NOTHING
    else Counted(w, run[0], i, d).Plus(Total(Step(w, run[0].tid, run[0].action), run[1..], i, d))
  }

  // What has been counted when a call has come to a frame.
  predicate Fits(f: Frame, n: Tally) {
    && n.left == (if Left(f.pc) && (f.api.Dlopen? ==> n.built == 1) then 1 else 0)
    && (match f.api
        case Dlopen =>
          if Left(f.pc) then n.built + n.failed == 1
          else n.failed == 0 && n.built == if f.pc == Entering || f.pc == InTable then 1 else 0
        case _ => n.built == n.failed == 0 && f.pc != Building && f.pc != Freeing)
    && n.loads == (if f.loaded then 1 else 0) && n.loads <= n.left
    && n.hooks == f.ctors
  }

  /** What has been counted when a call returns: dlopen enters the loader exactly when it has a
      vector, the others always do; the hook runs for each module, but not for a null file. */
  predicate Complete(api: Api, n: Tally) {
    && n.built + n.failed == (if api.Dlopen? then 1 else 0)
    && n.left == (if api.Dlopen? then n.built else 1)
    && n.loads <= n.left
    && n.hooks == (if api.DlopenNull? then 0 else n.loads)
  }

  // The call at depth d of a thread, or the fact that it has returned.
  ghost predicate Tracks(t: Thread, d: nat, api: Api, n: Tally) {
    if |t.stack| > d then t.stack[d].api == api && Fits(t.stack[d], n)
    else |t.stack| == d && Complete(api, n)
  }

  // ---- one step of the innermost call

  lemma TopTracks(t: Thread, f: Frame, cancel: bool, n: Tally)
    requires Busy(t) && f.api == Top(t).api && Fits(f, n)
    ensures Tracks(WithTop(t, f).(cancel := cancel), |t.stack| - 1, Top(t).api, n)
  {
    hide Fits;
  }

  lemma PopTracks(t: Thread, cancel: bool, n: Tally)
    requires Busy(t) && Complete(Top(t).api, n)
    ensures Tracks(Pop(t).(cancel := cancel), |t.stack| - 1, Top(t).api, n)
  {
    hide Complete;
  }

  // The frame after a step that does not return.
  lemma AdvancedFits(f: Frame, g: Frame, n: Tally)
    requires GoodFrame(f) && Fits(f, n) && f.pc != Building && f.pc != InTable && f.pc != Restoring
    requires g.api == f.api && g.loaded == f.loaded && !(f.api.DlopenNull? && f.pc != Start)
    requires
      match f.pc
      case Start => g.pc == (if f.api.DlopenNull? then InTable else Locking) && g.ctors == f.ctors
      case Inhibiting => g.pc == (if f.api.Dlopen? then Building else Entering) && g.ctors == f.ctors
      case Finished => g.pc == InCtors && g.ctors == f.ctors + 1
      case Locking => g.pc == Inhibiting && g.ctors == f.ctors
      case Entering => g.pc == InTable && g.ctors == f.ctors
      case _ => Left(g.pc) && g.pc != Freeing && g.ctors == f.ctors
    ensures Fits(g, n.(hooks := n.hooks + if f.pc == Finished then 1 else 0))
  {}

  lemma RestoredComplete(f: Frame, n: Tally)
    requires GoodFrame(f) && Fits(f, n) && f.pc == Restoring
    ensures Complete(f.api, n)
  {}

  lemma AdvancedTracks(t: Thread, n: Tally)
    requires GoodThread(t) && Busy(t) && !At(t, Building) && !At(t, InTable) && Fits(Top(t), n)
    ensures
      Tracks(Advanced(t), |t.stack| - 1, Top(t).api, n.(hooks := n.hooks + if At(t, Finished) then 1 else 0))
  {
    hide Fits, Tracks, Complete;
    var f := Top(t);
    if f.pc == Restoring {
      RestoredComplete(f, n);
      PopTracks(t, f.saved, n);
    } else {
      var v := Advanced(t);
      AdvancedFits(f, Top(v), n);
      TopTracks(t, Top(v), v.cancel, n.(hooks := n.hooks + if At(t, Finished) then 1 else 0));
    }
  }

  lemma BuiltFits(f: Frame, n: Tally, vector: bool)
    requires GoodFrame(f) && Fits(f, n) && f.pc == Building
    ensures
      Fits(f.(pc := if vector then Entering else Freeing),
           if vector then n.(built := n.built + 1) else n.(failed := n.failed + 1))
  {}

  lemma BuiltTracks(t: Thread, n: Tally, vector: bool)
    requires GoodThread(t) && At(t, Building) && Fits(Top(t), n)
    ensures
      Tracks(Built(t, vector), |t.stack| - 1, Top(t).api,
             if vector then n.(built := n.built + 1) else n.(failed := n.failed + 1))
  {
    BuiltFits(Top(t), n, vector);
    var v := Built(t, vector);
    hide Fits;
    TopTracks(t, Top(v), v.cancel, if vector then n.(built := n.built + 1) else n.(failed := n.failed + 1));
  }

  lemma LeftFits(f: Frame, g: Frame, n: Tally, found: bool)
    requires GoodFrame(f) && Fits(f, n) && f.pc == InTable && !f.api.DlopenNull?
    requires g == f.(loaded := found, pc := if f.api.Dlopen? then Freeing else Releasing)
    ensures Fits(g, n.(left := n.left + 1, loads := n.loads + if found then 1 else 0))
  {}

  lemma LeftTracks(t: Thread, n: Tally, found: bool)
    requires GoodThread(t) && At(t, InTable) && Fits(Top(t), n)
    ensures
      Tracks(LeftLoader(t, found), |t.stack| - 1, Top(t).api,
             n.(left := n.left + 1, loads := n.loads + if found then 1 else 0))
  {
    var m := n.(left := n.left + 1, loads := n.loads + if found then 1 else 0);
    var v := LeftLoader(t, found);
    if Top(t).api.DlopenNull? {
      NullComplete(Top(t), n, found);
      hide Fits, Complete;
      PopTracks(t, t.cancel, m);
    } else {
      LeftFits(Top(t), Top(v), n, found);
      hide Fits;
      TopTracks(t, Top(v), v.cancel, m);
    }
  }

  lemma NullComplete(f: Frame, n: Tally, found: bool)
    requires GoodFrame(f) && Fits(f, n) && f.pc == InTable && f.api.DlopenNull?
    ensures Complete(f.api, n.(left := n.left + 1, loads := n.loads + if found then 1 else 0))
  {}

  // A step of a call further inside leaves this one alone.
  lemma DeeperKeeps(w: World, i: Tid, a: Action, d: nat)
    requires Enabled(w, i, a) && |w.threads[i].stack| > d + 1
    ensures var s := Step(w, i, a).threads[i].stack; |s| > d && s[d] == w.threads[i].stack[d]
  {}

  lemma InnermostTracks(w: World, i: Tid, a: Action, n: Tally)
    requires Inv(w) && Enabled(w, i, a) && Busy(w.threads[i]) && Fits(Top(w.threads[i]), n)
    ensures
      var t, v := w.threads[i], Step(w, i, a).threads[i];
      Tracks(v, |t.stack| - 1, Top(t).api, n.Plus(Counted(w, Event(i, a), i, |t.stack| - 1)))
  {
    hide Fits, Complete, Advanced, Built, LeftLoader, GoodThread;
    assert Settled(w, i);
    var t := w.threads[i];
    match a
    case Advance => AdvancedTracks(t, n);
    case Build(vector) => BuiltTracks(t, n, vector);
    case Leave(found) => LeftTracks(t, n, found);
    case _ => assert n.Plus(NOTHING) == n;
  }

  lemma StepTracks(w: World, e: Event, i: Tid, d: nat, n: Tally)
    requires Inv(w) && Enabled(w, e.tid, e.action)
    requires i in w.threads && |w.threads[i].stack| > d && Fits(w.threads[i].stack[d], n)
    ensures
      var v := Step(w, e.tid, e.action);
      i in v.threads && Tracks(v.threads[i], d, w.threads[i].stack[d].api, n.Plus(Counted(w, e, i, d)))
  {
    hide Fits, Complete, Inv;
    assert n.Plus(NOTHING) == n;
    if e.tid != i {
      hide Advanced, Built, LeftLoader;
    } else if |w.threads[i].stack| > d + 1 {
      DeeperKeeps(w, i, e.action, d);
      hide Advanced, Built, LeftLoader, Enabled;
    } else {
      InnermostTracks(w, i, e.action, n);
      hide Step, Enabled, Counted;
    }
  }

  lemma {:induction false} RunTracks(w: World, run: seq<Event>, i: Tid, d: nat, n: Tally)
    requires Inv(w) && IsRun(w, run) && Within(w, run, i, d)
    requires i in w.threads && |w.threads[i].stack| > d && Fits(w.threads[i].stack[d], n)
    ensures
      var v := After(w, run);
      i in v.threads && Tracks(v.threads[i], d, w.threads[i].stack[d].api, n.Plus(Total(w, run, i, d)))
    decreases |run|
  {
    hide Inv, Enabled, Step, Fits, Complete, Counted;
    if run == [] {
      assert n.Plus(NOTHING) == n;
    } else {
      var v, m := Step(w, run[0].tid, run[0].action), Counted(w, run[0], i, d);
      StepTracks(w, run[0], i, d, n);
      StepKeepsInv(w, run[0].tid, run[0].action);
      if run[1..] == [] {
        assert m.Plus(NOTHING) == m;
      } else {
        RunTracks(v, run[1..], i, d, n.Plus(m));
        assert n.Plus(m).Plus(Total(v, run[1..], i, d)) == n.Plus(m.Plus(Total(v, run[1..], i, d)));
      }
    }
  }

  /** From any reachable state, over any run in which a call starts, is made nested calls from
      and returns, whatever the other threads do: how often it entered the loader and the hook. */
  lemma CallEntersOnce(w: World, i: Tid, api: Api, run: seq<Event>)
    requires Inv(w) && Enabled(w, i, Call(api))
    requires var v := Step(w, i, Call(api)); IsRun(v, run) && Within(v, run, i, |w.threads[i].stack|)
    ensures
      var v, d := Step(w, i, Call(api)), |w.threads[i].stack|;
      var n, u := Total(v, run, i, d), After(v, run);
      && i in u.threads
      && (|u.threads[i].stack| <= d ==>
            && n.built + n.failed == (if api.Dlopen? then 1 else 0)
            && n.left == (if api.Dlopen? then n.built else 1)
            && n.hooks == (if api.DlopenNull? then 0 else n.loads) && n.loads <= n.left)
  {
    var d := |w.threads[i].stack|;
    var v := Step(w, i, Call(api));
    assert v.threads[i].stack[d] == Frame(api, Start, w.threads[i].cancel, false, false, 0);
    assert Fits(v.threads[i].stack[d], NOTHING);
    StepKeepsInv(w, i, Call(api));
    hide Inv, Enabled, Step, Fits;
    RunTracks(v, run, i, d, NOTHING);
    var n := Total(v, run, i, d);
    assert NOTHING.Plus(n) == n;
  }

  // ---- all calls of a thread together

  // The thread leaves the loader in dlopen.
  predicate IsDlopenLeft(w: World, e: Event) {
    e.action.Leave? && e.tid in w.threads && Busy(w.threads[e.tid]) && Top(w.threads[e.tid]).api.Dlopen?
  }

  ghost function Vectors(w: World, run: seq<Event>, i: Tid): nat
    requires IsRun(w, run)
    decreases |run|
  {
    if run == [] then 0
    else (if run[0].tid == i && run[0].action == Build(true) then 1 else 0)
         + Vectors(Step(w, run[0].tid, run[0].action), run[1..], i)
  }

  ghost function Entries(w: World, run: seq<Event>, i: Tid): nat
    requires IsRun(w, run)
    decreases |run|
  {
    if run == [] then 0
    else (if run[0].tid == i && IsDlopenLeft(w, run[0]) then 1 else 0)
         + Entries(Step(w, run[0].tid, run[0].action), run[1..], i)
  }

  // A dlopen that has its vector and has not left the loader.
  predicate Pending(t: Thread) {
    Busy(t) && Top(t).api.Dlopen? && (Top(t).pc == Entering || Top(t).pc == InTable)
  }

  function PendingOf(w: World, i: Tid): nat {
    if i in w.threads && Pending(w.threads[i]) then 1 else 0
  }

  lemma PopNotPending(t: Thread, cancel: bool)
    requires GoodThread(t) && Busy(t)
    ensures !Pending(Pop(t).(cancel := cancel))
  {}

  lemma AdvancedPending(t: Thread)
    requires GoodThread(t) && Busy(t) && !At(t, Building) && !At(t, InTable)
    ensures Pending(Advanced(t)) <==> Pending(t)
  {
    if At(t, Restoring) {
      PopNotPending(t, Top(t).saved);
    }
  }

  lemma LeftLoaderPending(t: Thread, found: bool)
    requires GoodThread(t) && At(t, InTable)
    ensures !Pending(LeftLoader(t, found))
  {
    if Top(t).api.DlopenNull? {
      PopNotPending(t, t.cancel);
    }
  }

  lemma BuiltPending(t: Thread, vector: bool)
    requires GoodThread(t) && At(t, Building)
    ensures !Pending(t) && (Pending(Built(t, vector)) <==> vector)
  {}

  lemma StepPending(w: World, e: Event, i: Tid)
    requires Inv(w) && Enabled(w, e.tid, e.action)
    ensures PendingOf(w, i) + (if e.tid == i && e.action == Build(true) then 1 else 0)
         == PendingOf(Step(w, e.tid, e.action), i) + (if e.tid == i && IsDlopenLeft(w, e) then 1 else 0)
  {
    hide Advanced, LeftLoader, Built;
    if e.tid == i {
      assert Settled(w, i);
      var t := w.threads[i];
      match e.action
      case Advance => AdvancedPending(t);
      case Build(vector) => BuiltPending(t, vector);
      case Leave(found) => LeftLoaderPending(t, found);
      case _ =>
    }
  }

  lemma {:induction false} VectorsMatchEntries(w: World, run: seq<Event>, i: Tid)
    requires Inv(w) && IsRun(w, run)
    ensures PendingOf(w, i) + Vectors(w, run, i) == PendingOf(After(w, run), i) + Entries(w, run, i)
    decreases |run|
  {
    hide Inv, Enabled, Step, PendingOf, IsDlopenLeft;
    if run == [] {
    } else {
      StepPending(w, run[0], i);
      StepKeepsInv(w, run[0].tid, run[0].action);
      VectorsMatchEntries(Step(w, run[0].tid, run[0].action), run[1..], i);
    }
  }

  /** In every run a thread leaves the loader in dlopen once for each vector it built. */
  lemma OneEntryPerVector(w: World, run: seq<Event>, i: Tid)
    requires Initial(w) && IsRun(w, run)
    ensures Entries(w, run, i) <= Vectors(w, run, i) <= Entries(w, run, i) + 1
    ensures i in After(w, run).threads && Free(After(w, run).threads[i]) ==> Vectors(w, run, i) == Entries(w, run, i)
  {
    InitialInv(w);
    VectorsMatchEntries(w, run, i);
  }

  // ---- runs that exist

  lemma {:induction false} Snoc(w: World, run: seq<Event>, e: Event)
    requires IsRun(w, run) && Enabled(After(w, run), e.tid, e.action)
    ensures IsRun(w, run + [e]) && After(w, run + [e]) == Step(After(w, run), e.tid, e.action)
    decreases |run|
  {
    hide Enabled, Step;
    if run == [] {
      assert [] + [e] == [e] && [e][1..] == [];
      assert IsRun(Step(w, e.tid, e.action), []);
    } else {
      assert (run + [e])[1..] == run[1..] + [e] && (run + [e])[0] == run[0];
      Snoc(Step(w, run[0].tid, run[0].action), run[1..], e);
    }
  }

  // The innermost call of thread i is at f, above the calls `below`; it holds the lock and has
  // stopped thread creation as told, and no other thread does either.
  ghost predicate Alone(v: World, i: Tid, below: seq<Frame>, f: Frame, locked: bool, stopped: bool) {
    && i in v.threads && v.threads[i].stack == below + [f] && v.creating == {}
    && v.writer == (if locked then By(i) else Nobody)
    && v.inhibitor == (if stopped then By(i) else Nobody)
  }

  // Nobody holds anything, and the program or a constructor runs above the calls `below`.
  ghost predicate Idle(v: World, i: Tid, below: seq<Frame>) {
    && i in v.threads && v.threads[i].stack == below && Free(v.threads[i])
    && v.creating == {} && v.writer == Nobody && v.inhibitor == Nobody
  }

  lemma StartAlone(v: World, i: Tid, below: seq<Frame>, api: Api) returns (f: Frame)
    requires Idle(v, i, below)
    ensures Enabled(v, i, Call(api)) && Alone(Step(v, i, Call(api)), i, below, f, false, false)
    ensures f.api == api && f.pc == Start && !f.loaded
  {
    f := Frame(api, Start, v.threads[i].cancel, false, false, 0);
  }

  lemma AdvanceAlone(v: World, i: Tid, below: seq<Frame>, f: Frame, locked: bool, stopped: bool) returns (g: Frame)
    requires Alone(v, i, below, f, locked, stopped) && !f.api.DlopenNull?
    requires f.pc != Building && f.pc != InTable && f.pc != Restoring
    requires (f.pc == Locking ==> !locked) && (f.pc == Inhibiting ==> !stopped)
    ensures Enabled(v, i, Advance)
    ensures
      Alone(Step(v, i, Advance), i, below, g, f.pc == Locking || (locked && f.pc != Unlocking),
            f.pc == Inhibiting || (stopped && f.pc != Releasing))
    ensures g.api == f.api && g.loaded == f.loaded
    ensures
      g.pc == match f.pc
              case Start => Locking
              case Locking => Inhibiting
              case Inhibiting => if f.api.Dlopen? then Building else Entering
              case Entering => InTable
              case Freeing => Releasing
              case Releasing => Unlocking
              case Unlocking => if f.loaded then Finished else Restoring
              case Finished => InCtors
              case _ => Restoring
  {
    var t := v.threads[i];
    assert Top(t) == f;
    g := Top(Advanced(t));
    assert (below + [f])[|below| := g] == below + [g];
  }

  lemma LeaveAlone(v: World, i: Tid, below: seq<Frame>, f: Frame, found: bool) returns (g: Frame)
    requires Alone(v, i, below, f, true, true) && f.pc == InTable && !f.api.DlopenNull?
    ensures Enabled(v, i, Leave(found)) && Alone(Step(v, i, Leave(found)), i, below, g, true, true)
    ensures g.api == f.api && g.loaded == found && g.pc == if f.api.Dlopen? then Freeing else Releasing
  {
    var t := v.threads[i];
    assert Top(t) == f;
    g := Top(LeftLoader(t, found));
    assert (below + [f])[|below| := g] == below + [g];
  }

  // The same, at the end of a run.
  lemma Go(w: World, run: seq<Event>, i: Tid, below: seq<Frame>, f: Frame, locked: bool, stopped: bool)
    returns (more: seq<Event>, g: Frame)
    requires IsRun(w, run) && Alone(After(w, run), i, below, f, locked, stopped) && !f.api.DlopenNull?
    requires f.pc != Building && f.pc != InTable && f.pc != Restoring
    requires (f.pc == Locking ==> !locked) && (f.pc == Inhibiting ==> !stopped)
    ensures IsRun(w, more) && more == run + [Event(i, Advance)]
    ensures
      Alone(After(w, more), i, below, g, f.pc == Locking || (locked && f.pc != Unlocking),
            f.pc == Inhibiting || (stopped && f.pc != Releasing))
    ensures g.api == f.api && g.loaded == f.loaded
    ensures
      g.pc == match f.pc
              case Start => Locking
              case Locking => Inhibiting
              case Inhibiting => if f.api.Dlopen? then Building else Entering
              case Entering => InTable
              case Freeing => Releasing
              case Releasing => Unlocking
              case Unlocking => if f.loaded then Finished else Restoring
              case Finished => InCtors
              case _ => Restoring
  {
    hide Enabled, Step, Alone;
    g := AdvanceAlone(After(w, run), i, below, f, locked, stopped);
    Snoc(w, run, Event(i, Advance));
    more := run + [Event(i, Advance)];
  }

  // A call from its start to the point where it holds both locks.
  lemma Take(w: World, run: seq<Event>, i: Tid, below: seq<Frame>, api: Api) returns (more: seq<Event>, g: Frame)
    requires IsRun(w, run) && Idle(After(w, run), i, below) && !api.DlopenNull?
    ensures IsRun(w, more) && Alone(After(w, more), i, below, g, true, true)
    ensures
      more == run + [Event(i, Call(api)), Event(i, Advance), Event(i, Advance), Event(i, Advance)]
    ensures g.api == api && !g.loaded && g.pc == if api.Dlopen? then Building else Entering
  {
    hide Enabled, Step, Idle, Alone;
    g := StartAlone(After(w, run), i, below, api);
    Snoc(w, run, Event(i, Call(api)));
    more := run + [Event(i, Call(api))];
    more, g := Go(w, more, i, below, g, false, false);
    more, g := Go(w, more, i, below, g, false, false);
    more, g := Go(w, more, i, below, g, true, false);
  }

  // From there to the return, or to the constructors.
  lemma GiveBack(w: World, run: seq<Event>, i: Tid, below: seq<Frame>, f: Frame) returns (more: seq<Event>, g: Frame)
    requires IsRun(w, run) && Alone(After(w, run), i, below, f, true, true) && !f.api.DlopenNull? && f.pc == Releasing
    ensures IsRun(w, more) && Alone(After(w, more), i, below, g, false, false)
    ensures more == run + [Event(i, Advance), Event(i, Advance)]
    ensures g.api == f.api && g.pc == if f.loaded then Finished else Restoring
  {
    hide Alone;
    more, g := Go(w, run, i, below, f, true, true);
    more, g := Go(w, more, i, below, g, true, false);
  }

  // One more call, of which the constructors are running.
  lemma Deeper(w: World, run: seq<Event>, i: Tid, below: seq<Frame>) returns (more: seq<Event>, g: Frame)
    requires IsRun(w, run) && Idle(After(w, run), i, below)
    ensures IsRun(w, more) && Idle(After(w, more), i, below + [g])
  {
    hide Enabled, Step, Idle, Alone;
    more, g := Take(w, run, i, below, Dldopen);
    more, g := Go(w, more, i, below, g, true, true);
    g := LeaveAlone(After(w, more), i, below, g, true);
    Snoc(w, more, Event(i, Leave(true)));
    more := more + [Event(i, Leave(true))];
    more, g := GiveBack(w, more, i, below, g);
    more, g := Go(w, more, i, below, g, false, false);
    AloneIdle(After(w, more), i, below, g);
  }

  lemma AloneIdle(v: World, i: Tid, below: seq<Frame>, f: Frame)
    requires Alone(v, i, below, f, false, false) && f.pc == InCtors
    ensures Idle(v, i, below + [f])
  {}

  lemma SetIdle(v: World, i: Tid, below: seq<Frame>, enabled: bool)
    requires Idle(v, i, below)
    ensures Enabled(v, i, SetCancel(enabled))
    ensures Idle(Step(v, i, SetCancel(enabled)), i, below)
    ensures Step(v, i, SetCancel(enabled)).threads[i].cancel == enabled
  {}

  /** Constructors may nest calls to any depth, and set cancellation as they like. */
  lemma {:induction false} AnyDepth(w: World, i: Tid, depth: nat, enabled: bool) returns (run: seq<Event>)
    requires Initial(w) && i in w.threads
    ensures IsRun(w, run)
    ensures
      var v := After(w, run);
      i in v.threads && |v.threads[i].stack| == depth && Free(v.threads[i]) && v.threads[i].cancel == enabled
    ensures Idle(After(w, run), i, After(w, run).threads[i].stack)
    decreases depth
  {
    if depth == 0 {
      run := [];
    } else {
      run := AnyDepth(w, i, depth - 1, enabled);
      var below := After(w, run).threads[i].stack;
      hide Enabled, Step, Idle;
      var g: Frame;
      run, g := Deeper(w, run, i, below);
      IdleStack(After(w, run), i, below + [g]);
    }
    Setting(w, run, i, enabled);
    run := run + [Event(i, SetCancel(enabled))];
  }

  lemma IdleStack(v: World, i: Tid, below: seq<Frame>)
    requires Idle(v, i, below)
    ensures i in v.threads && v.threads[i].stack == below && Free(v.threads[i])
  {}

  lemma Setting(w: World, run: seq<Event>, i: Tid, enabled: bool)
    requires IsRun(w, run) && i in After(w, run).threads && Idle(After(w, run), i, After(w, run).threads[i].stack)
    ensures
      var e := Event(i, SetCancel(enabled));
      var v := After(w, run);
      && IsRun(w, run + [e]) && i in After(w, run + [e]).threads
      && Idle(After(w, run + [e]), i, v.threads[i].stack) && After(w, run + [e]).threads[i].cancel == enabled
      && After(w, run + [e]).threads[i].stack == v.threads[i].stack && Free(After(w, run + [e]).threads[i])
  {
    var v := After(w, run);
    SetIdle(v, i, v.threads[i].stack, enabled);
    Snoc(w, run, Event(i, SetCancel(enabled)));
    IdleStack(Step(v, i, SetCancel(enabled)), i, v.threads[i].stack);
    hide Enabled, Step, Idle, Free;
  }

  lemma RestoreAlone(v: World, i: Tid, below: seq<Frame>, f: Frame)
    requires Alone(v, i, below, f, false, false) && f.pc == Restoring
    ensures Enabled(v, i, Advance)
    ensures i in Step(v, i, Advance).threads && Step(v, i, Advance).threads[i].stack == below
  {
    assert Top(v.threads[i]) == f;
  }

  lemma BuildAlone(v: World, i: Tid, below: seq<Frame>, f: Frame, vector: bool) returns (g: Frame)
    requires Alone(v, i, below, f, true, true) && f.pc == Building
    ensures Enabled(v, i, Build(vector)) && Alone(Step(v, i, Build(vector)), i, below, g, true, true)
    ensures g.api == f.api && g.loaded == f.loaded && g.pc == if vector then Entering else Freeing
  {
    var t := v.threads[i];
    assert Top(t) == f;
    g := f.(pc := if vector then Entering else Freeing);
    assert (below + [f])[|below| := g] == below + [g];
  }

  // From the step before the loader to the release of the locks.
  lemma PassLoader(w: World, run: seq<Event>, i: Tid, f: Frame, found: bool) returns (more: seq<Event>, g: Frame)
    requires IsRun(w, run) && Alone(After(w, run), i, [], f, true, true) && f.pc == Entering && !f.api.DlopenNull?
    ensures IsRun(w, more) && Alone(After(w, more), i, [], g, true, true)
    ensures g.api == f.api && g.loaded == found && g.pc == if f.api.Dlopen? then Freeing else Releasing
    ensures more == run + [Event(i, Advance)] + [Event(i, Leave(found))]
  {
    hide Enabled, Step, Alone;
    more, g := Go(w, run, i, [], f, true, true);
    g := LeaveAlone(After(w, more), i, [], g, found);
    Snoc(w, more, Event(i, Leave(found)));
    more := more + [Event(i, Leave(found))];
  }

  // From the release of the vector, or of the locks, to the return.
  lemma Finish(w: World, run: seq<Event>, i: Tid, f: Frame) returns (more: seq<Event>)
    requires IsRun(w, run) && Alone(After(w, run), i, [], f, true, true) && !f.api.DlopenNull?
    requires f.pc == Freeing || f.pc == Releasing
    ensures IsRun(w, more) && run <= more
    ensures i in After(w, more).threads && !Busy(After(w, more).threads[i])
  {
    hide Enabled, Step, Alone, IsRun, After;
    var g := f;
    more := run;
    if g.pc == Freeing {
      more, g := Go(w, more, i, [], g, true, true);
    }
    more, g := GiveBack(w, more, i, [], g);
    if g.pc == Finished {
      more, g := Go(w, more, i, [], g, false, false);
      more, g := Go(w, more, i, [], g, false, false);
    }
    RestoreAlone(After(w, more), i, [], g);
    Snoc(w, more, Event(i, Advance));
    more := more + [Event(i, Advance)];
  }

  // What a call meets: whether it gets a vector, and what the loader answers if it is asked.
  predicate Meets(run: seq<Event>, i: Tid, api: Api, vector: bool, found: bool) {
    && (api.Dlopen? ==> Event(i, Build(vector)) in run)
    && ((api.Dlopen? ==> vector) ==> Event(i, Leave(found)) in run)
  }

  lemma Has(a: seq<Event>, e: Event, b: seq<Event>)
    ensures e in a + [e] && (a + [e] <= b ==> e in b)
  {
    assert (a + [e])[|a|] == e;
  }

  lemma StaysIn(a: seq<Event>, e: Event, b: seq<Event>)
    requires e in a && a <= b
    ensures e in b
  {}

  /** Every call can meet everything, and returns. */
  lemma EveryOutcome(w: World, i: Tid, api: Api, vector: bool, found: bool) returns (run: seq<Event>)
    requires Initial(w) && i in w.threads && !api.DlopenNull?
    ensures IsRun(w, run) && Meets(run, i, api, vector, found)
    ensures i in After(w, run).threads && !Busy(After(w, run).threads[i])
  {
    assert Idle(w, i, []) && IsRun(w, []) && After(w, []) == w;
    hide Enabled, Step, Alone, Idle, Initial, IsRun, After;
    var g: Frame;
    run, g := Take(w, [], i, [], api);
    var built := run;
    if api.Dlopen? {
      g := BuildAlone(After(w, run), i, [], g, vector);
      Snoc(w, run, Event(i, Build(vector)));
      run := run + [Event(i, Build(vector))];
      Has(built, Event(i, Build(vector)), run);
      built := run;
    }
    if api.Dlopen? ==> vector {
      run, g := PassLoader(w, run, i, g, found);
      Has(built + [Event(i, Advance)], Event(i, Leave(found)), run);
      if api.Dlopen? {
        StaysIn(built, Event(i, Build(vector)), run);
      }
    }
    var last := run;
    run := Finish(w, run, i, g);
    if api.Dlopen? {
      StaysIn(last, Event(i, Build(vector)), run);
    }
    if api.Dlopen? ==> vector {
      StaysIn(last, Event(i, Leave(found)), run);
    }
  }

  // So can a call with a null file.
  lemma NullOutcome(w: World, i: Tid, found: bool)
    requires Initial(w) && i in w.threads
    ensures
      var run := [Event(i, Call(DlopenNull)), Event(i, Advance), Event(i, Leave(found))];
      IsRun(w, run) && i in After(w, run).threads && !Busy(After(w, run).threads[i])
  {
    var e0, e1, e2 := Event(i, Call(DlopenNull)), Event(i, Advance), Event(i, Leave(found));
    var w1 := Step(w, i, Call(DlopenNull));
    var w2 := Step(w1, i, Advance);
    var w3 := Step(w2, i, Leave(found));
    assert [e0, e1, e2][1..] == [e1, e2] && [e1, e2][1..] == [e2] && [e2][1..] == [];
    assert IsRun(w3, []) && After(w3, []) == w3;
    assert IsRun(w2, [e2]) && After(w2, [e2]) == w3;
    assert IsRun(w1, [e1, e2]) && After(w1, [e1, e2]) == w3;
  }

  /** A thread that is creating another one holds up a call until it is done. */
  lemma CreationHoldsUp(w: World, i: Tid, j: Tid, child: Tid)
    requires Initial(w) && i in w.threads && j in w.threads && i != j && child !in w.threads
    ensures
      var run := [Event(i, BeginCreate), Event(j, Call(Dldopen)), Event(j, Advance), Event(j, Advance)];
      && IsRun(w, run)
      && var v := After(w, run);
         && !Enabled(v, j, Advance) && Enabled(v, i, EndCreate(child))
         && Enabled(Step(v, i, EndCreate(child)), j, Advance)
  {
    var e0, e1, e2 := Event(i, BeginCreate), Event(j, Call(Dldopen)), Event(j, Advance);
    var w1 := Step(w, i, BeginCreate);
    var w2 := Step(w1, j, Call(Dldopen));
    var w3 := Step(w2, j, Advance);
    var w4 := Step(w3, j, Advance);
    assert [e0, e1, e2, e2][1..] == [e1, e2, e2] && [e1, e2, e2][1..] == [e2, e2] && [e2, e2][1..] == [e2];
    assert [e2][1..] == [];
    assert IsRun(w4, []) && After(w4, []) == w4;
    assert IsRun(w3, [e2]) && After(w3, [e2]) == w4;
    assert IsRun(w2, [e2, e2]) && After(w2, [e2, e2]) == w4;
    assert IsRun(w1, [e1, e2, e2]) && After(w1, [e1, e2, e2]) == w4;
  }
}
