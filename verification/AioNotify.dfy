/**
 The asynchronous wait for completions.  After every completion it sends, the worker notifies; a notification
 wakes the sleeping waiter or is kept as a single permit for the next one.  The waiter looks at the completion
 channel, and only then goes to sleep unless a permit is there.
 */
module AioNotify {
  import opened Aio
  import opened AioProofs

  datatype Waiter =
    | Away       // not inside `wait_completed`
    | Trying     // about to look at the completion channel
    | Arming     // found it empty, about to go to sleep
    | Asleep

  datatype World = World(
    driver: Driver,
    waiter: Waiter,
    permit: bool,
    owed: nat)       // completions sent whose notification is still to come

  datatype Act =
    | Driver(step: Step)
    | Notify                       // by the worker
    | StartWait | Try | Arm | Drop // by the waiter; `Drop` abandons the wait

  function Boot(queueLength: nat): World { World(New(queueLength), Away, false, 0) }

  predicate IsWorker(st: Step) {
    st.Wake? || st.CancelOne? || st.RunCmd? || st.EndCmds? || st.Fetch? || st.EndFetch? || st.Match? || st.Park?
  }

  predicate IsKernel(st: Step) { st.Complete? || st.Signal? }

  predicate CanAct(w: World, a: Act) {
    match a
    case Driver(st) =>
      && Enabled(w.driver, st)
      && (IsWorker(st) ==> w.owed == 0)                        // it notifies before it goes on
      && (!IsWorker(st) && !IsKernel(st) ==> w.waiter.Away?)   // the waiter holds the driver
    case Notify => w.owed > 0
    case StartWait => w.waiter.Away? && w.driver.pc.Idle? && w.driver.space < w.driver.queueLength
    case Try => w.waiter.Trying?
    case Arm => w.waiter.Arming?
    case Drop => !w.waiter.Away?
  }

  /** Completions a worker step sends. */
  function Sent(st: Step): nat {
    match st
    case Match => 1
    case CancelOne(_) => 1
    case _ => 0
  }

  function Next(w: World, a: Act): World
    requires CanAct(w, a)
  {
    match a
    case Driver(st) => w.(driver := Do(w.driver, st), owed := w.owed + Sent(st))
    case Notify =>
      if w.waiter.Asleep? then w.(owed := w.owed - 1, waiter := Trying) else w.(owed := w.owed - 1, permit := true)
    case StartWait => w.(waiter := Trying)
    case Try =>
      if w.driver.done == [] then w.(waiter := Arming)
      else if w.driver.pc.Idle? then w.(driver := Do(w.driver, Retrieve), waiter := Away)
      else w
    case Arm => if w.permit then w.(permit := false, waiter := Trying) else w.(waiter := Asleep)
    case Drop => w.(waiter := Away)
  }

  predicate CanRunActs(w: World, acts: seq<Act>)
    decreases |acts|
  {
    acts == [] || (CanAct(w, acts[0]) && CanRunActs(Next(w, acts[0]), acts[1..]))
  }

  function RunActs(w: World, acts: seq<Act>): World
    requires CanRunActs(w, acts)
    decreases |acts|
  {
    if acts == [] then w else RunActs(Next(w, acts[0]), acts[1..])
  }

  // --- Invariant -------------------------------------------------------------------

  predicate Alert(w: World) {
    && (w.waiter.Arming? && w.driver.done != [] ==> w.owed > 0 || w.permit)
    && (w.waiter.Asleep? && w.driver.done != [] ==> w.owed > 0)
    && (!w.waiter.Away? ==> w.driver.pc.Idle? && w.driver.space < w.driver.queueLength)
  }

  ghost predicate Sound(w: World) { Inv(w.driver) && WakeInv(w.driver) && Alert(w) }

  lemma StepKeepsRoom(s: Aio.Driver, st: Step)
    requires Enabled(s, st) && (IsWorker(st) || IsKernel(st))
    ensures var e := Do(s, st);
            e.pc == s.pc && e.space == s.space && e.queueLength == s.queueLength && e.submits == s.submits
            && (Sent(st) == 0 ==> e.done == s.done)
  {
  }

  lemma ActKeepsAlert(w: World, a: Act)
    requires Alert(w) && CanAct(w, a)
    ensures Alert(Next(w, a))
  {
    hide Do, Enabled;
    match a
    case Driver(st) => if IsWorker(st) || IsKernel(st) { StepKeepsRoom(w.driver, st); }
    case _ =>
  }

  lemma ActKeepsSound(w: World, a: Act)
    requires Sound(w) && CanAct(w, a) && Next(w, a).driver.submits <= ID_LIMIT
    ensures Sound(Next(w, a))
  {
    hide Do, Inv, WakeInv, Alert;
    ActKeepsAlert(w, a);
    match a
    case Driver(st) =>
      StepKeepsInv(w.driver, st);
      StepKeepsWakeInv(w.driver, st);
    case Try =>
      if w.driver.done != [] && w.driver.pc.Idle? {
        StepKeepsInv(w.driver, Retrieve);
        StepKeepsWakeInv(w.driver, Retrieve);
      }
    case _ =>
  }

  lemma ActsGrow(w: World, acts: seq<Act>)
    requires CanRunActs(w, acts)
    ensures w.driver.submits <= RunActs(w, acts).driver.submits
    decreases |acts|
  {
    if acts != [] { ActsGrow(Next(w, acts[0]), acts[1..]); }
  }

  lemma {:induction false} ActsKeepSound(w: World, acts: seq<Act>)
    requires Sound(w) && CanRunActs(w, acts) && RunActs(w, acts).driver.submits <= ID_LIMIT
    ensures Sound(RunActs(w, acts))
    decreases |acts|
  {
    hide Sound, CanAct, Next;
    if acts != [] {
      ActsGrow(Next(w, acts[0]), acts[1..]);
      ActKeepsSound(w, acts[0]);
      ActsKeepSound(Next(w, acts[0]), acts[1..]);
    }
  }

  /** No notification is lost: a sleeping waiter with completions in the channel has a notification still to come. */
  lemma NoLostNotification(queueLength: nat, acts: seq<Act>)
    requires CanRunActs(Boot(queueLength), acts) && RunActs(Boot(queueLength), acts).driver.submits <= ID_LIMIT
    ensures var w := RunActs(Boot(queueLength), acts);
            w.waiter.Asleep? && w.owed == 0 ==> w.driver.done == []
  {
    hide RunActs, CanRunActs;
    NewInv(queueLength);
    ActsKeepSound(Boot(queueLength), acts);
  }

  /**
   A sleeping waiter is not stuck: a notification is owed, or the worker has a step, or the kernel owes a
   signal, or an operation is still running in the kernel.
   */
  lemma SleeperMakesProgress(queueLength: nat, acts: seq<Act>)
    requires CanRunActs(Boot(queueLength), acts) && RunActs(Boot(queueLength), acts).driver.submits <= ID_LIMIT
    ensures var w := RunActs(Boot(queueLength), acts);
            w.waiter.Asleep? ==>
              w.owed > 0 || WorkerCanStep(w.driver) || w.driver.signals > 0 || w.driver.inflight != {}
  {
    hide RunActs, CanRunActs;
    NewInv(queueLength);
    ActsKeepSound(Boot(queueLength), acts);
    var w := RunActs(Boot(queueLength), acts);
    if w.waiter.Asleep? && w.owed == 0 { OutstandingMoves(w.driver); }
  }
}
