/** Conservation, uniqueness and wake-up of the AIO driver, over every interleaving. */
module AioProofs {
  import opened Aio

  // --- Where operations are -------------------------------------------------

  function Flag(b: bool): nat { if b then 1 else 0 }

  function Count<T(==)>(xs: seq<T>, x: T): nat {
    if xs == [] then 0 else Flag(xs[0] == x) + Count(xs[1..], x)
  }

  lemma {:induction false} CountAppend<T>(xs: seq<T>, ys: seq<T>, x: T)
    ensures Count(xs + ys, x) == Count(xs, x) + Count(ys, x)
  {
    if xs == [] {
      assert xs + ys == ys;
    } else {
      assert (xs + ys)[1..] == xs[1..] + ys;
      CountAppend(xs[1..], ys, x);
    }
  }

  lemma {:induction false} CountIn<T>(xs: seq<T>, x: T)
    ensures Count(xs, x) > 0 <==> x in xs
  {
    if xs != [] {
      CountIn(xs[1..], x);
      assert xs == [xs[0]] + xs[1..];
    }
  }

  lemma CountSnoc<T>(xs: seq<T>, y: T, x: T)
    ensures Count(xs + [y], x) == Count(xs, x) + Flag(y == x)
  {
    CountAppend(xs, [y], x);
    assert Count([y], x) == Flag(y == x);
  }

  /** An issued id is in exactly one place: queued Insert, active map, done channel, retrieved, or taken back. */
  predicate Placed(s: Driver, id: nat) {
    Count(s.cmds, Insert(id)) + Flag(id in s.active) + Count(s.done, id) + Count(s.retrieved, id) + Count(s.removed, id)
      == Flag(id < s.submits)
  }

  /** The submission of `id` is not decided yet. */
  predicate Undecided(pc: SubmitPc, id: nat) {
    (pc.Sent? || pc.Rejected?) && pc.id == id
  }

  /** A registered operation is with the kernel, in the event queue, about to be removed, or undecided. */
  predicate Explained(s: Driver, id: nat) {
    Count(s.cmds, Insert(id)) + Flag(id in s.active) ==
      Flag(id in s.inflight) + Count(s.events, id) + Count(s.queue, id) + Count(s.cmds, Remove(id)) + Flag(Undecided(s.pc, id))
  }

  predicate Tracked(s: Driver, id: nat) { Placed(s, id) && Explained(s, id) }

  predicate InsertsFirst(cmds: seq<Cmd>) {
    forall i, j :: 0 <= i < j < |cmds| && cmds[i].Remove? ==> cmds[j] != Insert(cmds[i].id)
  }

  predicate Base(s: Driver) {
    && s.submits <= ID_LIMIT && s.nextId == s.submits % ID_LIMIT
    && s.space + |s.inflight| + |s.events| + |s.queue| + |s.done| == s.queueLength
    && InsertsFirst(s.cmds)
    && (s.pc.Sent? ==> s.space > 0)
    && !s.panicked
  }

  ghost predicate Inv(s: Driver)
    ensures Inv(s) ==> s.submits <= ID_LIMIT && !s.panicked
  {
    Base(s) && forall id: nat :: Tracked(s, id)
  }

  lemma NewInv(queueLength: nat)
    ensures Inv(New(queueLength))
  {
  }

  // --- One step, for one id ------------------------------------------------------

  lemma BeginSubmitTracks(s: Driver, id: nat)
    requires Base(s) && Tracked(s, id) && Enabled(s, BeginSubmit) && s.submits < ID_LIMIT
    ensures Tracked(Do(s, BeginSubmit), id)
  {
    CountSnoc(s.cmds, Insert(s.nextId), Insert(id));
    CountSnoc(s.cmds, Insert(s.nextId), Remove(id));
  }

  lemma BeginSubmitBase(s: Driver)
    requires Inv(s) && Enabled(s, BeginSubmit) && s.submits < ID_LIMIT
    ensures Base(Do(s, BeginSubmit))
  {
    var id := s.nextId;
    forall i | 0 <= i < |s.cmds| && s.cmds[i].Remove? ensures s.cmds[i].id != id {
      CountIn(s.cmds, s.cmds[i]);
      assert Tracked(s, s.cmds[i].id);
    }
  }

  lemma SubmitterTracks(s: Driver, st: Step, id: nat)
    requires Tracked(s, id) && Enabled(s, st)
    requires st.IoSubmit? || st.SendRemove? || st.WriteFd? || st.RequestCancel? || st.RequestCancelAll?
    ensures Tracked(Do(s, st), id)
  {
    match st
    case SendRemove =>
      CountSnoc(s.cmds, Remove(s.pc.id), Insert(id));
      CountSnoc(s.cmds, Remove(s.pc.id), Remove(id));
    case RequestCancel(x) =>
      CountSnoc(s.cmds, Cancel(x), Insert(id));
      CountSnoc(s.cmds, Cancel(x), Remove(id));
    case RequestCancelAll =>
      CountSnoc(s.cmds, CancelAll, Insert(id));
      CountSnoc(s.cmds, CancelAll, Remove(id));
    case _ =>
  }

  lemma RetrieveTracks(s: Driver, id: nat)
    requires Tracked(s, id) && Enabled(s, Retrieve)
    ensures Tracked(Do(s, Retrieve), id)
  {
    CountSnoc(s.retrieved, s.done[0], id);
  }

  lemma SubmitterBase(s: Driver, st: Step)
    requires Inv(s) && Enabled(s, st)
    requires st.IoSubmit? || st.SendRemove? || st.WriteFd? || st.RequestCancel? || st.RequestCancelAll? || st.Retrieve?
    ensures Base(Do(s, st))
  {
    if st.IoSubmit? { assert Tracked(s, s.pc.id); }
  }

  lemma CompleteTracks(s: Driver, x: nat, id: nat)
    requires Tracked(s, id) && Enabled(s, Complete(x))
    ensures Tracked(Do(s, Complete(x)), id)
  {
    CountSnoc(s.events, x, id);
  }

  lemma FetchTracks(s: Driver, id: nat)
    requires Tracked(s, id) && Enabled(s, Fetch)
    ensures Tracked(Do(s, Fetch), id)
  {
    var n := if |s.events| < 16 then |s.events| else 16;
    assert s.events == s.events[..n] + s.events[n..];
    CountAppend(s.events[..n], s.events[n..], id);
    CountAppend(s.queue, s.events[..n], id);
  }

  lemma MatchTracks(s: Driver, id: nat)
    requires Tracked(s, id) && Enabled(s, Match)
    ensures Tracked(Do(s, Match), id)
  {
    CountSnoc(s.done, s.queue[0], id);
  }

  /** The duplicate-id panic is unreachable. */
  lemma InsertIsNew(s: Driver)
    requires Inv(s) && s.cmds != [] && s.cmds[0].Insert?
    ensures s.cmds[0].id !in s.active
  {
    assert Tracked(s, s.cmds[0].id);
  }

  /** The unknown-remove panic is unreachable. */
  lemma RemoveIsKnown(s: Driver)
    requires Inv(s) && s.cmds != [] && s.cmds[0].Remove?
    ensures s.cmds[0].id in s.active
  {
    var id := s.cmds[0].id;
    assert Tracked(s, id);
    CountIn(s.cmds, Insert(id));
    CountIn(s.cmds, Remove(id));
  }

  lemma RunInsertTracks(s: Driver, id: nat)
    requires Tracked(s, id) && Enabled(s, RunCmd) && s.cmds[0].Insert? && s.cmds[0].id !in s.active
    ensures Tracked(Do(s, RunCmd), id)
  {
  }

  lemma RunRemoveTracks(s: Driver, id: nat)
    requires Tracked(s, id) && Enabled(s, RunCmd) && s.cmds[0].Remove? && s.cmds[0].id in s.active
    ensures Tracked(Do(s, RunCmd), id)
  {
    CountSnoc(s.removed, s.cmds[0].id, id);
  }

  lemma CancelTracks(s: Driver, x: nat, id: nat)
    requires Tracked(s, id) && Enabled(s, CancelOne(x))
    ensures Tracked(Do(s, CancelOne(x)), id)
  {
    CountSnoc(s.done, x, id);
  }

  lemma TailInsertsFirst(cmds: seq<Cmd>)
    requires cmds != [] && InsertsFirst(cmds)
    ensures InsertsFirst(cmds[1..])
  {
  }

  lemma RunCmdBase(s: Driver)
    requires Inv(s) && Enabled(s, RunCmd)
    ensures Base(Do(s, RunCmd))
  {
    TailInsertsFirst(s.cmds);
    if s.cmds[0].Insert? { InsertIsNew(s); }
    else if s.cmds[0].Remove? { RemoveIsKnown(s); }
  }

  lemma BackgroundBase(s: Driver, st: Step)
    requires Base(s) && Enabled(s, st)
    requires st.Complete? || st.Signal? || st.Wake? || st.CancelOne? || st.EndCmds? || st.Fetch? || st.EndFetch? || st.Match? || st.Park?
    ensures Base(Do(s, st))
  {
  }

  lemma RunCmdTracks(s: Driver, id: nat)
    requires Inv(s) && Tracked(s, id) && Enabled(s, RunCmd)
    ensures Tracked(Do(s, RunCmd), id)
  {
    hide Inv;
    if s.cmds[0].Insert? {
      InsertIsNew(s);
      RunInsertTracks(s, id);
    } else if s.cmds[0].Remove? {
      RemoveIsKnown(s);
      RunRemoveTracks(s, id);
    }
  }

  /** Steps that move no operation. */
  lemma QuietTracks(s: Driver, st: Step, id: nat)
    requires Tracked(s, id) && Enabled(s, st) && (st.Signal? || st.Wake? || st.EndCmds? || st.EndFetch? || st.Park?)
    ensures Tracked(Do(s, st), id)
  {
  }

  lemma StepTracks(s: Driver, st: Step, id: nat)
    requires Inv(s) && Enabled(s, st) && (st.BeginSubmit? ==> s.submits < ID_LIMIT)
    ensures Tracked(Do(s, st), id)
  {
    hide Do, Tracked;
    assert Tracked(s, id);
    match st
    case BeginSubmit => BeginSubmitTracks(s, id);
    case Retrieve => RetrieveTracks(s, id);
    case Complete(x) => CompleteTracks(s, x, id);
    case Fetch => FetchTracks(s, id);
    case Match => MatchTracks(s, id);
    case CancelOne(x) => CancelTracks(s, x, id);
    case RunCmd => RunCmdTracks(s, id);
    case Signal => QuietTracks(s, st, id);
    case Wake => QuietTracks(s, st, id);
    case EndCmds => QuietTracks(s, st, id);
    case EndFetch => QuietTracks(s, st, id);
    case Park => QuietTracks(s, st, id);
    case _ => SubmitterTracks(s, st, id);
  }

  lemma StepKeepsInv(s: Driver, st: Step)
    requires Inv(s) && Enabled(s, st) && Do(s, st).submits <= ID_LIMIT
    ensures Inv(Do(s, st))
  {
    forall id ensures Tracked(Do(s, st), id) { StepTracks(s, st, id); }
    match st
    case BeginSubmit => BeginSubmitBase(s);
    case RunCmd => RunCmdBase(s);
    case IoSubmit(_) => SubmitterBase(s, st);
    case SendRemove => SubmitterBase(s, st);
    case WriteFd => SubmitterBase(s, st);
    case RequestCancel(_) => SubmitterBase(s, st);
    case RequestCancelAll => SubmitterBase(s, st);
    case Retrieve => SubmitterBase(s, st);
    case _ => BackgroundBase(s, st);
  }

  lemma {:induction false} SubmitsGrow(s: Driver, steps: seq<Step>)
    requires CanRun(s, steps)
    ensures Run(s, steps).submits >= s.submits && Run(s, steps).queueLength == s.queueLength
    decreases |steps|
  {
    if steps != [] { SubmitsGrow(Do(s, steps[0]), steps[1..]); }
  }

  lemma {:induction false} RunKeepsInv(s: Driver, steps: seq<Step>)
    requires Inv(s) && CanRun(s, steps) && Run(s, steps).submits <= ID_LIMIT
    ensures Inv(Run(s, steps))
    decreases |steps|
  {
    if steps != [] {
      SubmitsGrow(Do(s, steps[0]), steps[1..]);
      StepKeepsInv(s, steps[0]);
      RunKeepsInv(Do(s, steps[0]), steps[1..]);
    }
  }

  // --- Results over every interleaving ------------------------------------------

  /**
   Main accounting result.  Before id wrap-around, in every interleaving: no panic was reached, every id ever
   issued is in exactly one place and only once, and `queue_length - space` counts the accepted operations
   that were not retrieved.
   */
  lemma OperationsConserved(queueLength: nat, steps: seq<Step>, id: nat)
    requires CanRun(New(queueLength), steps) && Run(New(queueLength), steps).submits <= 0x1_0000_0000_0000_0000
    ensures var s := Run(New(queueLength), steps);
            && !s.panicked
            && s.space <= s.queueLength == queueLength
            && s.queueLength - s.space == |s.inflight| + |s.events| + |s.queue| + |s.done|
            && Flag(Insert(id) in s.cmds) + Flag(id in s.active) + Flag(id in s.done)
                 + Flag(id in s.retrieved) + Flag(id in s.removed) == Flag(id < s.submits)
            && Count(s.done, id) + Count(s.retrieved, id) <= 1
  {
    NewInv(queueLength);
    RunKeepsInv(New(queueLength), steps);
    SubmitsGrow(New(queueLength), steps);
    var s := Run(New(queueLength), steps);
    assert Tracked(s, id);
    CountIn(s.cmds, Insert(id));
    CountIn(s.done, id);
    CountIn(s.retrieved, id);
    CountIn(s.removed, id);
  }

  /** Between calls, an operation that waits for its completion is with the kernel, and nothing else is. */
  lemma WaitingIsInKernel(queueLength: nat, steps: seq<Step>, id: nat)
    requires CanRun(New(queueLength), steps) && Run(New(queueLength), steps).submits <= ID_LIMIT
    requires Run(New(queueLength), steps).pc.Idle?
    ensures var s := Run(New(queueLength), steps);
            Flag(Insert(id) in s.cmds) + Flag(id in s.active) ==
              Flag(id in s.inflight) + Flag(id in s.events) + Flag(id in s.queue) + Flag(Remove(id) in s.cmds)
  {
    NewInv(queueLength);
    RunKeepsInv(New(queueLength), steps);
    var s := Run(New(queueLength), steps);
    assert Tracked(s, id);
    CountIn(s.cmds, Insert(id));
    CountIn(s.events, id);
    CountIn(s.queue, id);
    CountIn(s.cmds, Remove(id));
  }

  // --- Wake-up --------------------------------------------------------------------

  /** The submitter is inside a call that ends with an eventfd write. */
  predicate WriteDue(s: Driver) { !s.pc.Idle? }

  predicate WakeInv(s: Driver) {
    && (!s.worker.Cmds? && s.cmds != [] ==> s.eventfd > 0 || WriteDue(s))
    && ((s.worker.Matching? || s.worker.Parked?) && s.events != [] ==> s.eventfd > 0 || s.signals > 0)
    && (s.worker.Parked? && s.queue != [] ==> s.queue[0] !in s.active)
  }

  lemma StepKeepsWakeInv(s: Driver, st: Step)
    requires WakeInv(s) && Enabled(s, st)
    ensures WakeInv(Do(s, st))
  {
  }

  lemma {:induction false} RunKeepsWakeInv(s: Driver, steps: seq<Step>)
    requires WakeInv(s) && CanRun(s, steps)
    ensures WakeInv(Run(s, steps))
    decreases |steps|
  {
    if steps != [] {
      StepKeepsWakeInv(s, steps[0]);
      RunKeepsWakeInv(Do(s, steps[0]), steps[1..]);
    }
  }

  /**
   No lost wake-up.  Whenever the worker is parked with the eventfd at zero, a queued command or an unmatched
   event at the head of the queue has a submitter write still to come, and an unfetched event has a kernel
   signal still to come.
   */
  lemma NoLostWakeUp(queueLength: nat, steps: seq<Step>)
    requires CanRun(New(queueLength), steps) && Run(New(queueLength), steps).submits <= ID_LIMIT
    ensures var s := Run(New(queueLength), steps);
            s.worker.Parked? && s.eventfd == 0 ==>
              && (s.cmds != [] || s.queue != [] ==> WriteDue(s))
              && (s.events != [] ==> s.signals > 0)
  {
    NewInv(queueLength);
    RunKeepsInv(New(queueLength), steps);
    RunKeepsWakeInv(New(queueLength), steps);
    ParkedIsOwed(Run(New(queueLength), steps));
  }

  lemma ParkedIsOwed(s: Driver)
    requires Inv(s) && WakeInv(s)
    ensures s.worker.Parked? && s.eventfd == 0 ==>
              && (s.cmds != [] || s.queue != [] ==> WriteDue(s))
              && (s.events != [] ==> s.signals > 0)
  {
    if s.worker.Parked? && s.queue != [] {
      var id := s.queue[0];
      assert Tracked(s, id);
      CountIn(s.queue, id);
      assert s.cmds != [];
    }
  }

  /** Outstanding operations always have somebody who can move. */
  lemma OutstandingMoves(s: Driver)
    requires Inv(s) && WakeInv(s) && s.pc.Idle? && s.space < s.queueLength && s.done == []
    ensures WorkerCanStep(s) || s.signals > 0 || s.inflight != {}
  {
    ParkedIsOwed(s);
  }

  /** The worker's next step, when it has one. */
  predicate WorkerCanStep(s: Driver) {
    !s.worker.Parked? || s.eventfd > 0
  }

  /** The worker is never stuck outside the eventfd read. */
  lemma WorkerAlwaysSteps(s: Driver)
    requires WorkerCanStep(s)
    ensures exists st :: Enabled(s, st) && (st.Wake? || st.RunCmd? || st.EndCmds? || st.Fetch? || st.EndFetch? || st.Match? || st.Park?)
  {
    var st := match s.worker
      case Parked => Wake
      case Cmds => if s.cmds == [] then EndCmds else RunCmd
      case Fetching => if s.events == [] then EndFetch else Fetch
      case Matching => if s.queue != [] && s.queue[0] in s.active then Match else Park;
    assert Enabled(s, st);
  }

  /**
   A blocked `completed` is not stuck: between calls, with operations outstanding and no completion queued,
   the worker has a step, the kernel owes a signal, or an operation is still running in the kernel.
   */
  lemma CompletedMakesProgress(queueLength: nat, steps: seq<Step>)
    requires CanRun(New(queueLength), steps) && Run(New(queueLength), steps).submits <= ID_LIMIT
    ensures var s := Run(New(queueLength), steps);
            s.pc.Idle? && s.space < s.queueLength && s.done == [] ==>
              WorkerCanStep(s) || s.signals > 0 || s.inflight != {}
  {
    NewInv(queueLength);
    RunKeepsInv(New(queueLength), steps);
    RunKeepsWakeInv(New(queueLength), steps);
    var s := Run(New(queueLength), steps);
    if s.pc.Idle? && s.space < s.queueLength && s.done == [] { OutstandingMoves(s); }
  }

  /** Work the worker can do before it must park, when nobody else moves. */
  function Work(s: Driver): nat {
    2 * |s.cmds| + |s.active| + 2 * |s.events| + |s.queue| + (if s.eventfd > 0 then 4 else 0) +
    match s.worker case Parked => 0 case Cmds => 3 case Fetching => 2 case Matching => 1
  }

  lemma CommandSettles(s: Driver)
    requires Enabled(s, RunCmd)
    ensures Work(Do(s, RunCmd)) < Work(s)
  {
    var e := Do(s, RunCmd);
    assert |e.cmds| == |s.cmds| - 1 && |e.active| <= |s.active| + 1;
  }

  /** An operation leaves the active map. */
  lemma DeliverySettles(s: Driver, st: Step)
    requires Enabled(s, st) && (st.CancelOne? || st.Match?)
    ensures Work(Do(s, st)) < Work(s)
  {
    assert |Do(s, st).active| == |s.active| - 1;
  }

  lemma FetchSettles(s: Driver)
    requires Enabled(s, Fetch)
    ensures Work(Do(s, Fetch)) < Work(s)
  {
    var n := if |s.events| < 16 then |s.events| else 16;
    assert |s.events[n..]| == |s.events| - n;
  }

  /** Left alone, the worker parks after finitely many steps. */
  lemma WorkerSettles(s: Driver, st: Step)
    requires Enabled(s, st)
    requires st.Wake? || st.CancelOne? || st.RunCmd? || st.EndCmds? || st.Fetch? || st.EndFetch? || st.Match? || st.Park?
    ensures Work(Do(s, st)) < Work(s)
  {
    match st
    case RunCmd => CommandSettles(s);
    case CancelOne(_) => DeliverySettles(s, st);
    case Match => DeliverySettles(s, st);
    case Fetch => FetchSettles(s);
    case Wake =>
    case EndCmds =>
    case EndFetch =>
    case Park =>
  }

  /** Once everyone else is quiet and the worker has parked, every finished operation has been delivered. */
  lemma QuiescentMeansDelivered(queueLength: nat, steps: seq<Step>)
    requires CanRun(New(queueLength), steps) && Run(New(queueLength), steps).submits <= ID_LIMIT
    ensures var s := Run(New(queueLength), steps);
            s.pc.Idle? && s.signals == 0 && s.worker.Parked? && s.eventfd == 0 ==>
              && s.cmds == [] && s.events == [] && s.queue == []
              && s.active == s.inflight
              && s.queueLength - s.space == |s.inflight| + |s.done|
  {
    NoLostWakeUp(queueLength, steps);
    NewInv(queueLength);
    RunKeepsInv(New(queueLength), steps);
    SubmitsGrow(New(queueLength), steps);
    var s := Run(New(queueLength), steps);
    if s.pc.Idle? && s.signals == 0 && s.worker.Parked? && s.eventfd == 0 {
      forall x ensures x in s.active <==> x in s.inflight { assert Tracked(s, x); }
    }
  }
}
