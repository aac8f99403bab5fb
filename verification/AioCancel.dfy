/** Cancellation: what `cancel` and `cancel_all` achieve when the kernel lets go of the operations. */
module AioCancel {
  import opened Aio
  import opened AioProofs

  /** The command asks for the cancellation of `id`. */
  predicate Asks(c: Cmd, id: nat) { c.CancelAll? || c == Cancel(id) }

  /** A step the worker makes by itself: no kernel completion, no signal and no client call. */
  predicate ByWorker(st: Step) {
    st.Wake? || st.CancelOne? || st.RunCmd? || st.EndCmds? || st.Fetch? || st.EndFetch? || st.Match? || st.Park?
  }

  /** Somebody still has to be cancelled, and then the request is the last command in the channel. */
  predicate Pending(s: Driver, c: Cmd) {
    (exists id :: id in s.inflight && Asks(c, id)) ==> s.cmds != [] && s.cmds[|s.cmds| - 1] == c
  }

  /** The worker's next step; `io_cancel` succeeds wherever it is called. */
  ghost function Next(s: Driver): Step
    requires WorkerCanStep(s)
  {
    match s.worker
    case Parked => Wake
    case Cmds =>
      if s.cmds == [] then EndCmds
      else if Victims(s) != {} then var id :| id in Victims(s); CancelOne(id)
      else RunCmd
    case Fetching => if s.events == [] then EndFetch else Fetch
    case Matching => if s.queue != [] && s.queue[0] in s.active then Match else Park
  }

  /** Operations that the command at the head would cancel now. */
  ghost function Victims(s: Driver): set<nat> {
    if s.cmds == [] then {} else set id | id in s.active * s.inflight && Asks(s.cmds[0], id)
  }

  lemma NextIsWorkers(s: Driver)
    requires WorkerCanStep(s)
    ensures Enabled(s, Next(s)) && ByWorker(Next(s))
  {
  }

  /** Between calls, an operation with the kernel is registered once the commands ahead of it are gone. */
  lemma InFlightIsActive(s: Driver, id: nat)
    requires Inv(s) && s.pc.Idle? && id in s.inflight && (forall i :: 0 <= i < |s.cmds| ==> !s.cmds[i].Insert?)
    ensures id in s.active
  {
    assert Tracked(s, id);
    CountIn(s.cmds, Insert(id));
  }

  /** The worker's step loses nothing: what left the kernel was delivered. */
  lemma NextDelivers(s: Driver, id: nat)
    requires WorkerCanStep(s)
    ensures var e := Do(s, Next(s));
            && (id in s.inflight ==> id in e.inflight || id in e.done)
            && (id in s.done ==> id in e.done)
            && e.inflight <= s.inflight && e.pc == s.pc && e.retrieved == s.retrieved && e.submits == s.submits
  {
  }

  lemma NextKeepsPending(s: Driver, c: Cmd)
    requires Inv(s) && s.pc.Idle? && WorkerCanStep(s) && Pending(s, c) && (c.CancelAll? || c.Cancel?)
    ensures Pending(Do(s, Next(s)), c)
  {
    var e := Do(s, Next(s));
    if id :| id in e.inflight && Asks(c, id) {
      assert id in s.inflight;
      if Next(s).RunCmd? && |s.cmds| == 1 {
        assert id !in Victims(s);
        InFlightIsActive(s, id);
        assert false;
      }
    }
  }

  /** A run of the worker alone, from `s`, that parks with nothing left to read. */
  predicate Settles(s: Driver, steps: seq<Step>) {
    && CanRun(s, steps) && (forall i :: 0 <= i < |steps| ==> ByWorker(steps[i]))
    && var e := Run(s, steps); e.worker.Parked? && e.eventfd == 0 && e.cmds == []
  }

  /** That run leaves none of the operations asked for in the kernel, and has delivered each of them. */
  ghost predicate Cancels(s: Driver, c: Cmd, steps: seq<Step>) {
    Settles(s, steps) &&
    var e := Run(s, steps);
    && e.retrieved == s.retrieved && e.inflight <= s.inflight
    && (forall id :: id in s.done ==> id in e.done)
    && (forall id :: id in s.inflight && Asks(c, id) ==> id !in e.inflight && id in e.done)
    && (c.CancelAll? ==> e.inflight == {})
  }

  ghost predicate CanCancel(s: Driver, c: Cmd) { exists steps :: Cancels(s, c, steps) }

  lemma Prepend(s: Driver, c: Cmd, steps: seq<Step>)
    requires WorkerCanStep(s) && Enabled(s, Next(s)) && ByWorker(Next(s)) && Cancels(Do(s, Next(s)), c, steps)
    ensures Cancels(s, c, [Next(s)] + steps)
  {
    hide Next, Do, Enabled, Asks, ByWorker;
    var all := [Next(s)] + steps;
    assert all[1..] == steps;
    var m, e := Do(s, Next(s)), Run(s, all);
    assert e == Run(m, steps);
    forall id ensures (id in s.inflight ==> id in m.inflight || id in m.done) && (id in s.done ==> id in m.done) {
      NextDelivers(s, id);
    }
    NextDelivers(s, 0);
    forall id | id in s.inflight && Asks(c, id) ensures id !in e.inflight && id in e.done { }
  }

  lemma {:induction false} WorkerCancels(s: Driver, c: Cmd)
    requires Inv(s) && WakeInv(s) && s.pc.Idle? && Pending(s, c) && (c.CancelAll? || c.Cancel?)
    ensures CanCancel(s, c)
    decreases Work(s)
  {
    hide Cancels, Inv, WakeInv, Pending, Next, Work, Do;
    if WorkerCanStep(s) {
      NextIsWorkers(s);
      NextDelivers(s, 0);
      var e := Do(s, Next(s));
      InvBounds(s);
      StepKeepsInv(s, Next(s));
      StepKeepsWakeInv(s, Next(s));
      WorkerSettles(s, Next(s));
      NextKeepsPending(s, c);
      WorkerCancels(e, c);
      var rest :| Cancels(e, c, rest);
      Prepend(s, c, rest);
    } else {
      NothingLeft(s, c);
    }
  }

  lemma InvBounds(s: Driver)
    requires Inv(s)
    ensures s.submits <= ID_LIMIT
  {
  }

  lemma NothingLeft(s: Driver, c: Cmd)
    requires Inv(s) && WakeInv(s) && s.pc.Idle? && Pending(s, c) && !WorkerCanStep(s)
    ensures Cancels(s, c, [])
  {
  }

  function CommandOf(request: Step): Cmd
    requires request.RequestCancelAll? || request.RequestCancel?
  {
    if request.RequestCancelAll? then CancelAll else Cancel(request.id)
  }

  /**
   After any run that ends between calls, `cancel` or `cancel_all` and its eventfd write leave the worker with a
   run of its own, without a single completion from the kernel, that ends parked: none of the operations asked
   for is in flight any more, and each of them was delivered.
   */
  lemma CancelDelivers(queueLength: nat, steps: seq<Step>, request: Step)
    requires CanRun(New(queueLength), steps) && Run(New(queueLength), steps).submits <= ID_LIMIT
    requires Run(New(queueLength), steps).pc.Idle? && (request.RequestCancelAll? || request.RequestCancel?)
    ensures var s := Run(New(queueLength), steps);
            && CanRun(s, [request, WriteFd])
            && CanCancel(Run(s, [request, WriteFd]), CommandOf(request))
    ensures var s := Run(New(queueLength), steps);
            var t := Run(s, [request, WriteFd]);
            t.inflight == s.inflight && t.done == s.done && t.retrieved == s.retrieved
  {
    hide CanCancel, Inv, WakeInv;
    NewInv(queueLength);
    RunKeepsInv(New(queueLength), steps);
    NewWakes(queueLength);
    RunKeepsWakeInv(New(queueLength), steps);
    var s := Run(New(queueLength), steps);
    InvBounds(s);
    StepKeepsInv(s, request);
    StepKeepsWakeInv(s, request);
    var m := Do(s, request);
    StepKeepsInv(m, WriteFd);
    StepKeepsWakeInv(m, WriteFd);
    var t := Do(m, WriteFd);
    assert [request, WriteFd][1..] == [WriteFd] && [WriteFd][1..] == [];
    assert Run(m, [WriteFd]) == Run(t, []) == t;
    assert Run(s, [request, WriteFd]) == t;
    WorkerCancels(t, CommandOf(request));
  }

  lemma NewWakes(queueLength: nat)
    ensures WakeInv(New(queueLength))
  {
  }
}
