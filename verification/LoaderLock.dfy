/** The protocol that dlopen, __dldopen and __dlsopen share, as steps of interleaved threads:
    cancellation off, write lock, no thread creation; the loader; and all of it undone in
    reverse order, with the constructors run in between, where calls may be nested. */
module LoaderLock {

  type Tid = nat

  datatype Api = Dlopen | DlopenNull | Dldopen | Dlsopen

  /** Where a call stands.  `Building` is the path vector of dlopen, `InTable` the loader's
      own code, `Freeing` the release of the vector, `InCtors` the constructors' code. */
  datatype Pc = Start | Locking | Inhibiting | Building | Entering | InTable | Freeing | Releasing
              | Unlocking | Finished | InCtors | Restoring

  // `saved`: the cancellation state that the call noted, `entry`: the one it began with;
  // `loaded`: the loader returned a module; `ctors`: how often the hook was called.
  datatype Frame = Frame(api: Api, pc: Pc, entry: bool, saved: bool, loaded: bool, ctors: nat)

  // The calls under way, the innermost one last; `cancel`: cancellation is enabled.
  datatype Thread = Thread(stack: seq<Frame>, cancel: bool)

  // A lock taken for writing, or free.
  datatype Owner = Nobody | By(tid: Tid)

  /** `writer` holds the loader's lock and `inhibitor` has stopped thread creation, which
      first waits for the threads in `creating`, the ones inside pthread_create. */
  datatype World = World(threads: map<Tid, Thread>, writer: Owner, inhibitor: Owner, creating: set<Tid>)

  datatype Action =
    | Call(api: Api)            // from the program or from a constructor
    | SetCancel(enabled: bool)  // likewise
    | BeginCreate               // likewise: pthread_create starts
    | EndCreate(child: Tid)
    | Advance                   // the next step of a call that has one outcome
    | Build(vector: bool)       // whether the path vector could be had
    | Leave(found: bool)        // the loader returns, with or without a module

  predicate Busy(t: Thread) {
    t.stack != []
  }

  function Top(t: Thread): Frame
    requires Busy(t)
  {
    t.stack[|t.stack| - 1]
  }

  function WithTop(t: Thread, f: Frame): Thread
    requires Busy(t)
  {
    t.(stack := t.stack[|t.stack| - 1 := f])
  }

  function Pop(t: Thread): Thread
    requires Busy(t)
  {
    t.(stack := t.stack[..|t.stack| - 1])
  }

  // The program or a constructor is running, not the code of a call.
  predicate Free(t: Thread) {
    Busy(t) ==> Top(t).pc == InCtors
  }

  predicate At(t: Thread, pc: Pc) {
    Busy(t) && Top(t).pc == pc
  }

  // Whether the one next step of a call has to wait.
  predicate Waits(w: World, pc: Pc) {
    match pc
    case Locking => w.writer != Nobody
    case Inhibiting => w.inhibitor != Nobody || w.creating != {}
    case _ => false
  }

  predicate Enabled(w: World, i: Tid, a: Action) {
    i in w.threads &&
    var t := w.threads[i];
    match a
    case Call(_) => Free(t) && i !in w.creating
    case SetCancel(_) => Free(t) && i !in w.creating
    case BeginCreate => Free(t) && i !in w.creating && w.inhibitor == Nobody
    case EndCreate(child) => i in w.creating && child !in w.threads
    case Advance =>
      i !in w.creating && Busy(t) && !At(t, Building) && !At(t, InTable) && !Waits(w, Top(t).pc)
    case Build(_) => At(t, Building)
    case Leave(_) => At(t, InTable)
  }

  // The next step of a call, as far as its own thread goes.
  function Advanced(t: Thread): Thread
    requires Busy(t)
  {
    var f := Top(t);
    match f.pc
    case Start =>
      if f.api.DlopenNull? then WithTop(t, f.(pc := InTable))
      else WithTop(t, f.(pc := Locking, saved := t.cancel)).(cancel := false)
    case Locking => WithTop(t, f.(pc := Inhibiting))
    case Inhibiting => WithTop(t, f.(pc := if f.api.Dlopen? then Building else Entering))
    case Entering => WithTop(t, f.(pc := InTable))
    case Freeing => WithTop(t, f.(pc := Releasing))
    case Releasing => WithTop(t, f.(pc := Unlocking))
    case Unlocking => WithTop(t, f.(pc := if f.loaded then Finished else Restoring))
    case Finished => WithTop(t, f.(pc := InCtors, ctors := f.ctors + 1))
    case InCtors => WithTop(t, f.(pc := Restoring))
    case Restoring => Pop(t).(cancel := f.saved)
    case _ => t
  }

  // What that step does to the two locks.
  function WriterAfter(w: World, i: Tid, pc: Pc): Owner {
    match pc
    case Locking => By(i)
    case Unlocking => Nobody
    case _ => w.writer
  }

  function InhibitorAfter(w: World, i: Tid, pc: Pc): Owner {
    match pc
    case Inhibiting => By(i)
    case Releasing => Nobody
    case _ => w.inhibitor
  }

  function Called(t: Thread, api: Api): Thread {
    t.(stack := t.stack + [Frame(api, Start, t.cancel, false, false, 0)])
  }

  function Built(t: Thread, vector: bool): Thread
    requires Busy(t)
  {
    WithTop(t, Top(t).(pc := if vector then Entering else Freeing))
  }

  // A call with a null file returns at once; the others have locks to give back.
  function LeftLoader(t: Thread, found: bool): Thread
    requires Busy(t)
  {
    var f := Top(t).(loaded := found);
    match f.api
    case DlopenNull => Pop(t)
    case Dlopen => WithTop(t, f.(pc := Freeing))
    case _ => WithTop(t, f.(pc := Releasing))
  }

  function Put(w: World, i: Tid, t: Thread): World {
    w.(threads := w.threads[i := t])
  }

  function Step(w: World, i: Tid, a: Action): World
    requires Enabled(w, i, a)
  {
    var t := w.threads[i];
    match a
    case Call(api) => Put(w, i, Called(t, api))
    case SetCancel(enabled) => Put(w, i, t.(cancel := enabled))
    case BeginCreate => w.(creating := w.creating + {i})
    case EndCreate(child) => Put(w.(creating := w.creating - {i}), child, Thread([], true))
    case Advance =>
      Put(w, i, Advanced(t)).(writer := WriterAfter(w, i, Top(t).pc), inhibitor := InhibitorAfter(w, i, Top(t).pc))
    case Build(vector) => Put(w, i, Built(t, vector))
    case Leave(found) => Put(w, i, LeftLoader(t, found))
  }

  // ---- one thread's part of the invariant

  predicate HoldsLock(f: Frame) {
    match f.pc
    case Inhibiting => true
    case Building => true
    case Entering => true
    case InTable => !f.api.DlopenNull?
    case Freeing => true
    case Releasing => true
    case Unlocking => true
    case _ => false
  }

  predicate HoldsPtc(f: Frame) {
    HoldsLock(f) && f.pc != Inhibiting && f.pc != Unlocking
  }

  predicate Locked(t: Thread) {
    Busy(t) && HoldsLock(Top(t))
  }

  predicate Stopped(t: Thread) {
    Busy(t) && HoldsPtc(Top(t))
  }

  // The loader has returned.
  predicate Left(pc: Pc) {
    pc == Freeing || pc == Releasing || pc == Unlocking || pc == Finished || pc == InCtors || pc == Restoring
  }

  predicate GoodFrame(f: Frame) {
    && (f.api.DlopenNull? ==> f.pc == Start || f.pc == InTable)
    && (f.pc != Start && !f.api.DlopenNull? ==> f.saved == f.entry)
    && (f.pc == Building || f.pc == Freeing ==> f.api.Dlopen?)
    && (f.loaded ==> Left(f.pc))
    && (f.pc == Finished || f.pc == InCtors ==> f.loaded)
    && f.ctors == (if f.loaded && (f.pc == InCtors || f.pc == Restoring) then 1 else 0)
  }

  // Cancellation is off from the first step to the constructors, and in the untouched state
  // before it and throughout a call with a null file.
  predicate GoodCancel(f: Frame, cancel: bool) {
    && (HoldsLock(f) || f.pc == Locking || f.pc == Finished ==> !cancel)
    && (f.pc == Start || f.api.DlopenNull? ==> cancel == f.entry)
  }

  ghost predicate GoodThread(t: Thread) {
    && (Busy(t) ==> GoodFrame(Top(t)) && GoodCancel(Top(t), t.cancel))
    && (forall k :: 0 <= k < |t.stack| - 1 ==> GoodFrame(t.stack[k]) && t.stack[k].pc == InCtors)
  }

  lemma WithTopGood(t: Thread, f: Frame, cancel: bool)
    requires GoodThread(t) && Busy(t) && GoodFrame(f) && GoodCancel(f, cancel)
    ensures GoodThread(WithTop(t, f).(cancel := cancel))
    ensures Locked(WithTop(t, f).(cancel := cancel)) == HoldsLock(f)
    ensures Stopped(WithTop(t, f).(cancel := cancel)) == HoldsPtc(f)
  {
    hide GoodFrame, GoodCancel, HoldsLock, HoldsPtc;
  }

  lemma PopGood(t: Thread, cancel: bool)
    requires GoodThread(t) && Busy(t)
    ensures GoodThread(Pop(t).(cancel := cancel)) && Free(Pop(t))
    ensures !Locked(Pop(t).(cancel := cancel)) && !Stopped(Pop(t).(cancel := cancel))
  {
    if |t.stack| > 1 {
      assert GoodFrame(t.stack[|t.stack| - 2]);
    }
  }

  lemma CalledGood(t: Thread, api: Api)
    requires GoodThread(t) && Free(t)
    ensures GoodThread(Called(t, api)) && !Locked(Called(t, api)) && !Stopped(Called(t, api))
  {}

  lemma AdvancedGood(t: Thread)
    requires GoodThread(t) && Busy(t) && !At(t, Building) && !At(t, InTable)
    ensures GoodThread(Advanced(t))
    ensures Locked(Advanced(t)) == (if At(t, Locking) then true else if At(t, Unlocking) then false else Locked(t))
    ensures Stopped(Advanced(t)) == (if At(t, Inhibiting) then true else if At(t, Releasing) then false else Stopped(t))
  {
    var f := Top(t);
    if f.pc == Restoring {
      PopGood(t, f.saved);
    } else {
      var v := Advanced(t);
      WithTopGood(t, Top(v), v.cancel);
    }
  }

  lemma BuiltGood(t: Thread, vector: bool)
    requires GoodThread(t) && At(t, Building)
    ensures GoodThread(Built(t, vector)) && Locked(Built(t, vector)) && Stopped(Built(t, vector))
    ensures Locked(t) && Stopped(t)
  {
    WithTopGood(t, Top(Built(t, vector)), t.cancel);
  }

  lemma LeftLoaderGood(t: Thread, found: bool)
    requires GoodThread(t) && At(t, InTable)
    ensures GoodThread(LeftLoader(t, found))
    ensures Locked(LeftLoader(t, found)) == Locked(t) == Stopped(LeftLoader(t, found)) == Stopped(t)
  {
    if Top(t).api.DlopenNull? {
      PopGood(t, t.cancel);
    } else {
      WithTopGood(t, Top(LeftLoader(t, found)), t.cancel);
    }
  }

  // ---- the invariant

  ghost predicate Settled(w: World, i: Tid)
    requires i in w.threads
  {
    && GoodThread(w.threads[i])
    && (w.writer == By(i) <==> Locked(w.threads[i]))
    && (w.inhibitor == By(i) <==> Stopped(w.threads[i]))
    && (i in w.creating ==> Free(w.threads[i]))
  }

  ghost predicate Inv(w: World) {
    && (w.writer.By? ==> w.writer.tid in w.threads)
    && (w.inhibitor.By? ==> w.inhibitor.tid in w.threads && w.creating == {})
    && w.creating <= w.threads.Keys
    && (forall i :: i in w.threads ==> Settled(w, i))
  }

  predicate Initial(w: World) {
    && w.writer == Nobody && w.inhibitor == Nobody && w.creating == {}
    && forall i :: i in w.threads ==> !Busy(w.threads[i])
  }

  lemma InitialInv(w: World)
    requires Initial(w)
    ensures Inv(w)
  {}

  // A step of one thread that keeps its part of the invariant and takes no lock of another's.
  lemma PutKeepsInv(w: World, i: Tid, t: Thread, writer: Owner, inhibitor: Owner)
    requires Inv(w) && i in w.threads && GoodThread(t)
    requires i in w.creating ==> Free(t)
    requires writer == By(i) <==> Locked(t)
    requires inhibitor == By(i) <==> Stopped(t)
    requires writer == w.writer || (writer == By(i) && w.writer == Nobody) || (writer == Nobody && w.writer == By(i))
    requires || inhibitor == w.inhibitor || (inhibitor == By(i) && w.inhibitor == Nobody && w.creating == {})
             || (inhibitor == Nobody && w.inhibitor == By(i))
    ensures Inv(Put(w, i, t).(writer := writer, inhibitor := inhibitor))
  {
    hide GoodThread, Locked, Stopped, Free;
    var v := Put(w, i, t).(writer := writer, inhibitor := inhibitor);
    forall j | j in v.threads
      ensures Settled(v, j)
    {
      assert j != i ==> Settled(w, j);
    }
  }

  lemma AdvanceKeepsInv(w: World, i: Tid)
    requires Inv(w) && Enabled(w, i, Advance)
    ensures Inv(Step(w, i, Advance))
  {
    hide GoodThread, Advanced, Free;
    assert Settled(w, i);
    var t := w.threads[i];
    AdvancedGood(t);
    PutKeepsInv(w, i, Advanced(t), WriterAfter(w, i, Top(t).pc), InhibitorAfter(w, i, Top(t).pc));
  }

  lemma CreateKeepsInv(w: World, i: Tid, a: Action)
    requires Inv(w) && Enabled(w, i, a) && (a.BeginCreate? || a.EndCreate?)
    ensures Inv(Step(w, i, a))
  {
    var v := Step(w, i, a);
    forall j | j in v.threads
      ensures Settled(v, j)
    {
      assert j in w.threads ==> Settled(w, j);
    }
  }

  lemma StepKeepsInv(w: World, i: Tid, a: Action)
    requires Inv(w) && Enabled(w, i, a)
    ensures Inv(Step(w, i, a))
  {
    assert Settled(w, i);
    var t := w.threads[i];
    match a
    case Call(api) =>
      CalledGood(t, api);
      PutKeepsInv(w, i, Called(t, api), w.writer, w.inhibitor);
    case SetCancel(enabled) =>
      PutKeepsInv(w, i, t.(cancel := enabled), w.writer, w.inhibitor);
    case Advance => AdvanceKeepsInv(w, i);
    case Build(vector) =>
      BuiltGood(t, vector);
      PutKeepsInv(w, i, Built(t, vector), w.writer, w.inhibitor);
    case Leave(found) =>
      LeftLoaderGood(t, found);
      PutKeepsInv(w, i, LeftLoader(t, found), w.writer, w.inhibitor);
    case _ => CreateKeepsInv(w, i, a);
  }
}
