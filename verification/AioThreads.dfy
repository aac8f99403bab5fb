/** The driver's calls and the worker's loop as code over the shared state; each is proved to be a run of atomic steps. */
module AioThreads {
  import opened Aio
  import opened AioProofs
  import opened AioCancel

  predicate IsSubmitterStep(st: Step) {
    st.BeginSubmit? || st.IoSubmit? || st.SendRemove? || st.WriteFd? || st.RequestCancel? || st.RequestCancelAll? || st.Retrieve?
  }

  /** Steps the worker and the kernel take while the submitter is between two of its own. */
  predicate Interference(s: Driver, steps: seq<Step>) {
    CanRun(s, steps) && forall st :: st in steps ==> !IsSubmitterStep(st)
  }

  lemma {:induction false} RunSnoc(s: Driver, steps: seq<Step>, st: Step)
    requires CanRun(s, steps) && Enabled(Run(s, steps), st)
    ensures CanRun(s, steps + [st]) && Run(s, steps + [st]) == Do(Run(s, steps), st)
    decreases |steps|
  {
    if steps == [] {
      assert steps + [st] == [st];
    } else {
      assert (steps + [st])[1..] == steps[1..] + [st];
      RunSnoc(Do(s, steps[0]), steps[1..], st);
    }
  }

  lemma {:induction false} RunConcat(s: Driver, xs: seq<Step>, ys: seq<Step>)
    requires CanRun(s, xs) && CanRun(Run(s, xs), ys)
    ensures CanRun(s, xs + ys) && Run(s, xs + ys) == Run(Run(s, xs), ys)
    decreases |xs|
  {
    if xs == [] {
      assert xs + ys == ys;
    } else {
      assert (xs + ys)[1..] == xs[1..] + ys;
      RunConcat(Do(s, xs[0]), xs[1..], ys);
    }
  }

  lemma RunNothing(s: Driver)
    ensures CanRun(s, []) && Run(s, []) == s && Interference(s, [])
  {
  }

  lemma {:induction false} InterferenceFrame(s: Driver, steps: seq<Step>)
    requires Interference(s, steps)
    ensures var e := Run(s, steps);
            && e.queueLength == s.queueLength && e.space == s.space && e.nextId == s.nextId
            && e.submits == s.submits && e.pc == s.pc && e.retrieved == s.retrieved
            && s.done <= e.done
    decreases |steps|
  {
    if steps != [] {
      assert steps[0] in steps;
      assert forall st :: st in steps[1..] ==> st in steps;
      InterferenceFrame(Do(s, steps[0]), steps[1..]);
    }
  }

  predicate IsWorkerStep(st: Step) {
    st.Wake? || st.CancelOne? || st.RunCmd? || st.EndCmds? || st.Fetch? || st.EndFetch? || st.Match? || st.Park?
  }

  /** At most `n` steps of the submitter and the kernel, taken while the worker is between two of its own. */
  predicate Outside(s: Driver, steps: seq<Step>, n: nat) {
    && CanRun(s, steps) && |steps| <= n && (forall st :: st in steps ==> !IsWorkerStep(st))
    && Run(s, steps).submits <= ID_LIMIT
  }

  lemma OutsideFacts(s: Driver, steps: seq<Step>, n: nat)
    requires Outside(s, steps, n)
    ensures CanRun(s, steps) && |steps| <= n && (forall st :: st in steps ==> !IsWorkerStep(st))
    ensures Run(s, steps).submits <= ID_LIMIT
  {
  }

  lemma {:induction false} OutsideFrame(s: Driver, steps: seq<Step>)
    requires CanRun(s, steps) && forall st :: st in steps ==> !IsWorkerStep(st)
    ensures var e := Run(s, steps);
            && e.worker == s.worker && e.active == s.active && e.queue == s.queue
            && e.queueLength == s.queueLength && e.removed == s.removed && e.panicked == s.panicked
            && |e.cmds| <= |s.cmds| + |steps| && s.cmds <= e.cmds
            && |e.events| <= |s.events| + |steps| && s.events <= e.events
            && e.retrieved + e.done == s.retrieved + s.done
    decreases |steps|
  {
    if steps != [] {
      assert steps[0] in steps;
      assert forall st :: st in steps[1..] ==> st in steps;
      OutsideStep(s, steps[0]);
      OutsideFrame(Do(s, steps[0]), steps[1..]);
    }
  }

  lemma OutsideStep(s: Driver, st: Step)
    requires Enabled(s, st) && !IsWorkerStep(st)
    ensures var e := Do(s, st);
            && e.worker == s.worker && e.active == s.active && e.queue == s.queue
            && e.queueLength == s.queueLength && e.removed == s.removed && e.panicked == s.panicked
            && |e.cmds| <= |s.cmds| + 1 && s.cmds <= e.cmds
            && |e.events| <= |s.events| + 1 && s.events <= e.events
            && e.retrieved + e.done == s.retrieved + s.done
  {
    if st.Retrieve? { assert s.retrieved + s.done == s.retrieved + [s.done[0]] + s.done[1..]; }
  }

  /** A fetched event that is not registered belongs to an Insert still in the channel. */
  lemma UnmatchedHeadIsQueued(s: Driver)
    requires Inv(s) && s.queue != [] && s.queue[0] !in s.active
    ensures Insert(s.queue[0]) in s.cmds
  {
    assert Tracked(s, s.queue[0]);
    CountIn(s.queue, s.queue[0]);
    CountIn(s.cmds, Insert(s.queue[0]));
  }

  lemma NobodyMoves(s: Driver, n: nat)
    requires s.submits <= ID_LIMIT
    ensures Outside(s, [], n)
  {
  }

  /** The operation has left the kernel: its completion waits to be fetched, or it was delivered. */
  predicate Gone(s: Driver, id: nat) {
    id !in s.inflight && (id in s.events || id in s.retrieved + s.done)
  }

  lemma StepKeepsGone(s: Driver, st: Step, id: nat)
    requires Inv(s) && Enabled(s, st) && !IsWorkerStep(st) && (id in s.inflight || Gone(s, id))
    ensures id in Do(s, st).inflight || Gone(Do(s, st), id)
    ensures Gone(s, id) ==> Gone(Do(s, st), id)
  {
    assert Tracked(s, id);
    CountIn(s.events, id);
    CountIn(s.done, id);
    CountIn(s.retrieved, id);
    if st.Retrieve? { assert s.retrieved + s.done == s.retrieved + [s.done[0]] + s.done[1..]; }
  }

  lemma {:induction false} OutsideKeepsGone(s: Driver, steps: seq<Step>, id: nat)
    requires Inv(s) && CanRun(s, steps) && (forall st :: st in steps ==> !IsWorkerStep(st))
    requires Run(s, steps).submits <= ID_LIMIT && (id in s.inflight || Gone(s, id))
    ensures id in Run(s, steps).inflight || Gone(Run(s, steps), id)
    ensures Gone(s, id) ==> Gone(Run(s, steps), id)
    decreases |steps|
  {
    hide Inv, Gone, Do, Enabled;
    if steps != [] {
      assert steps[0] in steps;
      assert forall st :: st in steps[1..] ==> st in steps;
      SubmitsGrow(Do(s, steps[0]), steps[1..]);
      StepKeepsInv(s, steps[0]);
      StepKeepsGone(s, steps[0], id);
      OutsideKeepsGone(Do(s, steps[0]), steps[1..], id);
    }
  }

  /** A granted cancellation leaves the kernel delivered, and moves nothing else. */
  lemma CancelLeaves(s: Driver, id: nat, x: nat)
    requires Enabled(s, CancelOne(id))
    ensures Gone(Do(s, CancelOne(id)), id) && (Gone(s, x) ==> Gone(Do(s, CancelOne(id)), x))
  {
    assert s.retrieved + (s.done + [id]) == s.retrieved + s.done + [id];
  }

  /** The operations that the cancel command at the head asks for and the kernel lets go. */
  function Granted(s: Driver, answers: set<nat>): set<nat> {
    if s.cmds == [] then {} else set id | id in s.active * s.inflight * answers && Asks(s.cmds[0], id)
  }

  /**
   Inside a cancel command that began in `start`, with `todo` still to be tried: what was granted has left the
   kernel or waits for its turn, and what left the active map was granted and delivered.
   */
  ghost predicate Cancelling(start: Driver, answers: set<nat>, todo: set<nat>, s: Driver)
    requires start.cmds != []
  {
    && todo <= s.active <= start.active && (forall id :: id in todo ==> Asks(start.cmds[0], id))
    && (forall id :: id in Granted(start, answers) ==> Gone(s, id) || (id in todo && id in s.inflight))
    && (forall id :: id in start.active && id !in s.active ==>
          id in answers && Asks(start.cmds[0], id) && id in s.retrieved + s.done)
  }

  /** Nobody else has moved, so exactly the granted ones of those tried were delivered. */
  ghost predicate Alone(start: Driver, answers: set<nat>, todo: set<nat>, s: Driver) {
    var tried := Granted(start, answers) - todo;
    && s.active == start.active - tried && s.inflight == start.inflight - tried
    && multiset(s.done) == multiset(start.done) + multiset(tried)
    && s.eventfd == start.eventfd && s.events == start.events
  }

  lemma CancellingStarts(s: Driver, answers: set<nat>, todo: set<nat>)
    requires s.cmds != [] && (s.cmds[0].Cancel? || s.cmds[0].CancelAll?)
    requires todo == if s.cmds[0].CancelAll? then s.active else s.active * {s.cmds[0].id}
    ensures Cancelling(s, answers, todo, s) && Alone(s, answers, todo, s)
  {
    assert Granted(s, answers) - todo == {};
  }

  lemma TryGranted(start: Driver, answers: set<nat>, todo: set<nat>, s: Driver, id: nat)
    requires start.cmds != [] && Cancelling(start, answers, todo, s)
    requires id in todo && id in answers && Enabled(s, CancelOne(id))
    ensures Cancelling(start, answers, todo - {id}, Do(s, CancelOne(id)))
  {
    hide Gone, Granted, Asks;
    var e := Do(s, CancelOne(id));
    assert s.retrieved + (s.done + [id]) == s.retrieved + s.done + [id];
    forall x | x in Granted(start, answers) ensures Gone(e, x) || (x in todo - {id} && x in e.inflight) {
      CancelLeaves(s, id, x);
    }
  }

  lemma TryAlone(start: Driver, answers: set<nat>, todo: set<nat>, s: Driver, id: nat)
    requires start.cmds != [] && Cancelling(start, answers, todo, s) && Alone(start, answers, todo, s)
    requires id in todo && id in answers && Enabled(s, CancelOne(id))
    ensures Alone(start, answers, todo - {id}, Do(s, CancelOne(id)))
  {
    var granted := Granted(start, answers);
    assert id in granted;
    assert granted - (todo - {id}) == (granted - todo) + {id};
    assert multiset((granted - todo) + {id}) == multiset(granted - todo) + multiset{id};
  }

  lemma TryRefused(start: Driver, answers: set<nat>, todo: set<nat>, s: Driver, id: nat)
    requires start.cmds != [] && Cancelling(start, answers, todo, s)
    requires id in todo && (id !in answers || id !in s.inflight)
    ensures Cancelling(start, answers, todo - {id}, s)
    ensures Alone(start, answers, todo, s) ==> Alone(start, answers, todo - {id}, s)
  {
    hide Gone, Asks;
    if Alone(start, answers, todo, s) {
      var granted := Granted(start, answers);
      assert id !in granted;
      assert granted - (todo - {id}) == granted - todo;
    }
  }

  lemma OutsideKeepsCancelling(start: Driver, answers: set<nat>, todo: set<nat>, s: Driver, steps: seq<Step>)
    requires start.cmds != [] && Cancelling(start, answers, todo, s)
    requires Inv(s) && CanRun(s, steps) && (forall st :: st in steps ==> !IsWorkerStep(st))
    requires Run(s, steps).submits <= ID_LIMIT
    ensures Cancelling(start, answers, todo, Run(s, steps))
  {
    hide Inv, Run, CanRun, Gone, Granted, Asks;
    var e := Run(s, steps);
    OutsideFrame(s, steps);
    forall x | x in Granted(start, answers) ensures Gone(e, x) || (x in todo && x in e.inflight) {
      OutsideKeepsGone(s, steps, x);
    }
  }

  lemma CancellingEnables(start: Driver, answers: set<nat>, todo: set<nat>, s: Driver, id: nat)
    requires start.cmds != [] && Cancelling(start, answers, todo, s) && id in todo && id in s.inflight
    requires s.worker.Cmds? && start.cmds <= s.cmds && (start.cmds[0].Cancel? || start.cmds[0].CancelAll?)
    ensures Enabled(s, CancelOne(id))
  {
  }

  lemma CancellingEnds(start: Driver, answers: set<nat>, s: Driver)
    requires start.cmds != [] && Cancelling(start, answers, {}, s)
    ensures s.active <= start.active && (forall id :: id in Granted(start, answers) ==> Gone(s, id))
    ensures forall id :: id in start.active - s.active ==> id in answers && Asks(start.cmds[0], id) && id in s.retrieved + s.done
    ensures Alone(start, answers, {}, s) ==>
              var granted := Granted(start, answers);
              && s.active == start.active - granted && s.inflight == start.inflight - granted
              && multiset(s.done) == multiset(start.done) + multiset(granted)
              && s.eventfd == start.eventfd && s.events == start.events
  {
    assert Granted(start, answers) - {} == Granted(start, answers);
  }

  class Shared {
    var queueLength: nat
    var space: nat
    var nextId: nat
    var submits: nat
    var pc: SubmitPc
    var cmds: seq<Cmd>
    var done: seq<nat>
    var retrieved: seq<nat>
    var removed: seq<nat>
    var eventfd: nat
    var worker: WorkerPc
    var active: set<nat>
    var queue: seq<nat>
    var inflight: set<nat>
    var events: seq<nat>
    var signals: nat
    var panicked: bool

    function View(): Driver
      reads this
    {
      Driver(queueLength, space, nextId, submits, pc, cmds, done, retrieved, removed, eventfd, worker,
             active, queue, inflight, events, signals, panicked)
    }

    constructor (n: nat)
      ensures View() == New(n)
    {
      queueLength, space, nextId, submits, pc := n, n, 0, 0, Idle;
      cmds, done, retrieved, removed := [], [], [], [];
      eventfd, worker, active, queue := 0, Parked, {}, [];
      inflight, events, signals, panicked := {}, [], 0, false;
    }

    /** The other threads run for a while. */
    method Others() returns (ghost steps: seq<Step>)
      requires Inv(View())
      modifies this
      ensures Interference(old(View()), steps) && View() == Run(old(View()), steps) && Inv(View())
    {
      hide Inv, Run, CanRun;
      RunNothing(View());
      var taken: seq<Step> :| Interference(View(), taken);
      steps := taken;
      InterferenceFrame(View(), taken);
      RunKeepsInv(View(), taken);
      var e := Run(View(), taken);
      cmds, done, removed, eventfd, worker := e.cmds, e.done, e.removed, e.eventfd, e.worker;
      active, queue, inflight, events := e.active, e.queue, e.inflight, e.events;
      signals, panicked := e.signals, e.panicked;
    }

    method SendInsert()
      requires Inv(View()) && pc.Idle? && space > 0 && submits < ID_LIMIT
      modifies this
      ensures View() == Do(old(View()), BeginSubmit) && Inv(View())
    {
      hide Inv;
      StepKeepsInv(View(), BeginSubmit);
      cmds, pc := cmds + [Insert(nextId)], Sent(nextId);
      nextId, submits := (nextId + 1) % ID_LIMIT, submits + 1;
    }

    method CallIoSubmit(accepted: bool)
      requires Inv(View()) && pc.Sent?
      modifies this
      ensures View() == Do(old(View()), IoSubmit(accepted)) && Inv(View())
    {
      StepKeepsInv(View(), IoSubmit(accepted));
      if accepted {
        space, inflight, pc := space - 1, inflight + {pc.id}, Owes;
      } else {
        pc := Rejected(pc.id);
      }
    }

    method TakeBack()
      requires Inv(View()) && pc.Rejected?
      modifies this
      ensures View() == Do(old(View()), SendRemove) && Inv(View())
    {
      hide Inv;
      StepKeepsInv(View(), SendRemove);
      cmds, pc := cmds + [Remove(pc.id)], Owes;
    }

    method Notify()
      requires Inv(View()) && pc.Owes?
      modifies this
      ensures View() == Do(old(View()), WriteFd) && Inv(View())
    {
      hide Inv;
      StepKeepsInv(View(), WriteFd);
      eventfd, pc := eventfd + 1, Idle;
    }

    /**
     `submit`: `accepted` is the kernel's answer.  Whatever the other threads do in between, an accepted call
     takes exactly one slot, a refused one takes none, and the call ends with the worker notified.
     */
    method Submit(accepted: bool) returns (handle: int, ghost trace: seq<Step>)
      requires Inv(View()) && pc.Idle? && submits < ID_LIMIT
      modifies this
      ensures CanRun(old(View()), trace) && View() == Run(old(View()), trace) && Inv(View())
      ensures pc.Idle? && retrieved == old(retrieved) && queueLength == old(queueLength)
      ensures handle >= 0 <==> old(space) > 0 && accepted
      ensures handle >= 0 ==> handle == old(nextId) && space == old(space) - 1
      ensures handle < 0 ==> space == old(space)
      ensures old(space) > 0 ==> eventfd > 0 && submits == old(submits) + 1
    {
      hide Inv, Run, CanRun;
      ghost var start := View();
      RunNothing(start);
      if space == 0 { return -1, []; }
      handle := if accepted then nextId else -1;
      RunSnoc(start, [], BeginSubmit);
      SendInsert();
      trace := [] + [BeginSubmit];

      ghost var more := Others();
      RunConcat(start, trace, more);
      InterferenceFrame(Run(start, trace), more);
      trace := trace + more;

      RunSnoc(start, trace, IoSubmit(accepted));
      CallIoSubmit(accepted);
      trace := trace + [IoSubmit(accepted)];

      more := Others();
      RunConcat(start, trace, more);
      InterferenceFrame(Run(start, trace), more);
      trace := trace + more;

      if !accepted {
        RunSnoc(start, trace, SendRemove);
        TakeBack();
        trace := trace + [SendRemove];

        more := Others();
        RunConcat(start, trace, more);
        InterferenceFrame(Run(start, trace), more);
        trace := trace + more;
      }
      RunSnoc(start, trace, WriteFd);
      Notify();
      trace := trace + [WriteFd];
    }

    method SendRequest(request: Step)
      requires Inv(View()) && pc.Idle? && (request.RequestCancel? || request.RequestCancelAll?)
      modifies this
      ensures View() == Do(old(View()), request) && Inv(View())
    {
      hide Inv;
      StepKeepsInv(View(), request);
      cmds, pc := cmds + [CommandOf(request)], Owes;
    }

    /**
     `cancel` and `cancel_all`.  The request is sent behind every earlier command and the call ends with the
     worker notified; the call itself completes nothing and frees no slot.
     */
    method RequestCancellation(request: Step) returns (ghost trace: seq<Step>)
      requires Inv(View()) && pc.Idle? && (request.RequestCancel? || request.RequestCancelAll?)
      modifies this
      ensures CanRun(old(View()), trace) && View() == Run(old(View()), trace) && Inv(View())
      ensures trace != [] && trace[0] == request && pc.Idle? && eventfd > 0
      ensures forall st :: st in trace[1..] ==> st == WriteFd || !IsSubmitterStep(st)
      ensures space == old(space) && retrieved == old(retrieved) && old(done) <= done
    {
      hide Inv, Run, CanRun;
      ghost var start := View();
      RunNothing(start);
      RunSnoc(start, [], request);
      SendRequest(request);
      trace := [] + [request];

      ghost var more := Others();
      RunConcat(start, trace, more);
      InterferenceFrame(Run(start, trace), more);
      trace := trace + more;

      RunSnoc(start, trace, WriteFd);
      Notify();
      trace := trace + [WriteFd];
    }

    /** `try_completed`: the oldest completion, whose slot becomes free again. */
    method TryCompleted() returns (id: int)
      requires Inv(View()) && pc.Idle?
      modifies this
      ensures Inv(View()) && pc.Idle?
      ensures old(done) == [] ==> id < 0 && View() == old(View())
      ensures old(done) != [] ==> id == old(done)[0] && View() == Do(old(View()), Retrieve) && space == old(space) + 1 <= queueLength
      ensures id >= 0 ==> id !in old(retrieved)
    {
      if done == [] { return -1; }
      StepKeepsInv(View(), Retrieve);
      assert Tracked(View(), done[0]);
      CountIn(retrieved, done[0]);
      id := done[0];
      space, retrieved, done := space + 1, retrieved + [done[0]], done[1..];
    }

    /** Handles the command at the head of the channel; neither panic can be reached.  `answers` are those of `io_cancel`. */
    method RunCommand(answers: set<nat>, budget: nat) returns (ghost trace: seq<Step>, left: nat)
      requires Inv(View()) && worker.Cmds? && cmds != []
      modifies this
      ensures CanRun(old(View()), trace) && View() == Run(old(View()), trace) && Inv(View())
      ensures worker.Cmds? && left <= budget && |cmds| + left < |old(cmds)| + budget
      ensures (old(cmds)[0].Cancel? || old(cmds)[0].CancelAll?) && budget == 0 ==>
                inflight == old(inflight) - Granted(old(View()), answers) && active == old(active) - Granted(old(View()), answers)
      ensures budget == 0 ==> eventfd == old(eventfd) && events == old(events)
    {
      hide Inv, Run, CanRun;
      ghost var start := View();
      RunNothing(start);
      trace, left := [], budget;
      match cmds[0] {
        case Insert(id) => Register(id);
        case Remove(id) => Forget(id);
        case _ =>
          trace, left := CancelOperations(answers, budget);
          RunSnoc(start, trace, RunCmd);
          Discard();
          trace := trace + [RunCmd];
          return;
      }
      RunSnoc(start, [], RunCmd);
      trace := [] + [RunCmd];
    }

    method Register(id: nat)
      requires Inv(View()) && worker.Cmds? && cmds != [] && cmds[0] == Insert(id)
      modifies this
      ensures View() == Do(old(View()), RunCmd) && Inv(View())
    {
      hide Inv;
      InsertIsNew(View());
      StepKeepsInv(View(), RunCmd);
      cmds, active := cmds[1..], active + {id};
    }

    method Forget(id: nat)
      requires Inv(View()) && worker.Cmds? && cmds != [] && cmds[0] == Remove(id)
      modifies this
      ensures View() == Do(old(View()), RunCmd) && Inv(View())
    {
      hide Inv;
      RemoveIsKnown(View());
      StepKeepsInv(View(), RunCmd);
      cmds, active, removed := cmds[1..], active - {id}, removed + [id];
    }

    method Discard()
      requires Inv(View()) && worker.Cmds? && cmds != [] && (cmds[0].Cancel? || cmds[0].CancelAll?)
      modifies this
      ensures View() == Do(old(View()), RunCmd) && Inv(View())
    {
      hide Inv;
      StepKeepsInv(View(), RunCmd);
      cmds := cmds[1..];
    }

    /** A successful `io_cancel`: the operation is delivered. */
    method CancelOperation(id: nat)
      requires Inv(View()) && Enabled(View(), CancelOne(id))
      modifies this
      ensures View() == Do(old(View()), CancelOne(id)) && Inv(View())
    {
      hide Inv;
      StepKeepsInv(View(), CancelOne(id));
      active, inflight, done := active - {id}, inflight - {id}, done + [id];
    }

    /**
     The cancel commands, where `answers` are the operations `io_cancel` agrees to while they are in flight.  Each
     operation asked for is tried once, with everybody else running between the tries: those that were granted
     have left the kernel at the end, delivered here or completed by the kernel before their turn, and nothing
     else leaves the active map.  Left alone, exactly the granted ones are delivered, each once.
     */
    method CancelOperations(answers: set<nat>, budget: nat) returns (ghost trace: seq<Step>, left: nat)
      requires Inv(View()) && worker.Cmds? && cmds != [] && (cmds[0].Cancel? || cmds[0].CancelAll?)
      modifies this
      ensures CanRun(old(View()), trace) && View() == Run(old(View()), trace) && Inv(View())
      ensures worker.Cmds? && old(cmds) <= cmds && left <= budget && |cmds| + left <= |old(cmds)| + budget
      ensures forall id :: id in Granted(old(View()), answers) ==> Gone(View(), id)
      ensures active <= old(active)
      ensures forall id :: id in old(active) - active ==> id in answers && Asks(old(cmds)[0], id) && id in retrieved + done
      ensures budget == 0 ==>
                var granted := Granted(old(View()), answers);
                && active == old(active) - granted && inflight == old(inflight) - granted
                && multiset(done) == multiset(old(done)) + multiset(granted)
                && eventfd == old(eventfd) && events == old(events)
    {
      hide Inv, Run, CanRun, Cancelling, Alone, Granted, Gone, Asks;
      ghost var start := View();
      RunNothing(start);
      trace, left := [], budget;
      var todo := if cmds[0].CancelAll? then active else active * {cmds[0].id};
      CancellingStarts(start, answers, todo);
      while todo != {}
        invariant CanRun(start, trace) && View() == Run(start, trace) && Inv(View())
        invariant worker.Cmds? && old(cmds) <= cmds && left <= budget && |cmds| + left <= |old(cmds)| + budget
        invariant Cancelling(start, answers, todo, View()) && (budget == 0 ==> Alone(start, answers, todo, View()))
        decreases |todo|
      {
        var id :| id in todo;
        if id in answers && id in inflight {
          CancellingEnables(start, answers, todo, View(), id);
          TryGranted(start, answers, todo, View(), id);
          if budget == 0 { TryAlone(start, answers, todo, View(), id); }
          RunSnoc(start, trace, CancelOne(id));
          CancelOperation(id);
          trace := trace + [CancelOne(id)];
        } else {
          TryRefused(start, answers, todo, View(), id);
        }
        todo := todo - {id};
        ghost var mid := View();
        ghost var more: seq<Step>;
        more, left := Outsiders(left);
        OutsideKeepsCancelling(start, answers, todo, mid, more);
        RunConcat(start, trace, more);
        trace := trace + more;
      }
      CancellingEnds(start, answers, View());
    }

    /** The submitter and the kernel run for a while, out of the `budget` of steps they take during this pass. */
    method Outsiders(budget: nat) returns (ghost steps: seq<Step>, left: nat)
      requires Inv(View())
      modifies this
      ensures CanRun(old(View()), steps) && View() == Run(old(View()), steps) && Inv(View())
      ensures left + |steps| == budget && (budget == 0 ==> View() == old(View()))
      ensures submits <= ID_LIMIT && forall st :: st in steps ==> !IsWorkerStep(st)
      ensures worker == old(worker) && active == old(active) && queue == old(queue)
      ensures |cmds| <= |old(cmds)| + |steps| && old(cmds) <= cmds && |events| <= |old(events)| + |steps| && old(events) <= events
      ensures retrieved + done == old(retrieved) + old(done)
    {
      hide Inv, Run, CanRun;
      NobodyMoves(View(), budget);
      var taken: seq<Step> :| Outside(View(), taken, budget);
      OutsideFacts(View(), taken, budget);
      RunNothing(View());
      steps, left := taken, budget - |taken|;
      OutsideFrame(View(), taken);
      RunKeepsInv(View(), taken);
      var e := Run(View(), taken);
      FromSubmitter(e.space, e.nextId, e.submits, e.pc, e.cmds, e.retrieved);
      FromOthers(e.done, e.eventfd, e.inflight, e.events, e.signals);
    }

    /** Fields as the submitter has left them. */
    method FromSubmitter(space: nat, nextId: nat, submits: nat, pc: SubmitPc, cmds: seq<Cmd>, retrieved: seq<nat>)
      modifies this
      ensures View() == old(View()).(space := space, nextId := nextId, submits := submits, pc := pc, cmds := cmds, retrieved := retrieved)
    {
      this.space, this.nextId, this.submits := space, nextId, submits;
      this.pc, this.cmds, this.retrieved := pc, cmds, retrieved;
    }

    /** Fields as the submitter and the kernel have left them. */
    method FromOthers(done: seq<nat>, eventfd: nat, inflight: set<nat>, events: seq<nat>, signals: nat)
      modifies this
      ensures View() == old(View()).(done := done, eventfd := eventfd, inflight := inflight, events := events, signals := signals)
    {
      this.done, this.eventfd, this.inflight := done, eventfd, inflight;
      this.events, this.signals := events, signals;
    }

    /** The command loop of the worker, while submissions go on: it ends with the channel empty. */
    method ProcessCommands(budget: nat) returns (ghost trace: seq<Step>, left: nat)
      requires Inv(View()) && worker.Cmds?
      modifies this
      ensures CanRun(old(View()), trace) && View() == Run(old(View()), trace) && Inv(View())
      ensures worker.Fetching? && cmds == [] && left <= budget
      ensures budget == 0 ==> eventfd == old(eventfd) && events == old(events)
    {
      hide Inv, Run, CanRun, IsWorkerStep;
      ghost var start := View();
      ghost var more: seq<Step>;
      trace, left := Outsiders(budget);
      while cmds != []
        invariant CanRun(start, trace) && View() == Run(start, trace) && Inv(View())
        invariant worker.Cmds? && left <= budget && (budget == 0 ==> eventfd == old(eventfd) && events == old(events))
        decreases |cmds| + 2 * left
      {
        var answers: set<nat> := *;
        more, left := RunCommand(answers, left);
        RunConcat(start, trace, more);
        trace := trace + more;
        more, left := Outsiders(left);
        RunConcat(start, trace, more);
        trace := trace + more;
      }
      StepKeepsInv(View(), EndCmds);
      RunSnoc(start, trace, EndCmds);
      trace := trace + [EndCmds];
      worker := Fetching;
    }

    /** One `io_getevents` of at most sixteen events. */
    method FetchBatch()
      requires Inv(View()) && worker.Fetching? && events != []
      modifies this
      ensures View() == Do(old(View()), Fetch) && Inv(View())
    {
      hide Inv;
      StepKeepsInv(View(), Fetch);
      var n := if |events| < 16 then |events| else 16;
      queue, events := queue + events[..n], events[n..];
    }

    /** Fetches sixteen events at a time while more arrive: it ends with none left, and none out of order. */
    method FetchEvents(budget: nat) returns (ghost trace: seq<Step>, left: nat)
      requires Inv(View()) && worker.Fetching?
      modifies this
      ensures CanRun(old(View()), trace) && View() == Run(old(View()), trace) && Inv(View())
      ensures worker.Matching? && events == [] && left <= budget
      ensures old(queue) + old(events) <= queue
      ensures budget == 0 ==> eventfd == old(eventfd) && cmds == old(cmds) && queue == old(queue) + old(events)
    {
      hide Inv, Run, CanRun, IsWorkerStep;
      ghost var start := View();
      ghost var more: seq<Step>;
      trace, left := Outsiders(budget);
      while events != []
        invariant CanRun(start, trace) && View() == Run(start, trace) && Inv(View())
        invariant worker.Fetching? && left <= budget && old(queue) + old(events) <= queue + events
        invariant budget == 0 ==> eventfd == old(eventfd) && cmds == old(cmds) && queue + events == old(queue) + old(events)
        decreases |events| + 2 * left
      {
        RunSnoc(start, trace, Fetch);
        trace := trace + [Fetch];
        ghost var n := if |events| < 16 then |events| else 16;
        assert queue + events == queue + events[..n] + events[n..];
        FetchBatch();
        more, left := Outsiders(left);
        RunConcat(start, trace, more);
        trace := trace + more;
      }
      StepKeepsInv(View(), EndFetch);
      RunSnoc(start, trace, EndFetch);
      trace := trace + [EndFetch];
      worker := Matching;
    }

    /** Delivers the completion at the head of the queue. */
    method Deliver()
      requires Inv(View()) && worker.Matching? && queue != [] && queue[0] in active
      modifies this
      ensures View() == Do(old(View()), Match) && Inv(View())
    {
      hide Inv;
      StepKeepsInv(View(), Match);
      active, done, queue := active - {queue[0]}, done + [queue[0]], queue[1..];
    }

    /**
     Delivers completions, in order and each once, until the queue is empty or its head is not registered; such
     a head belongs to a submission whose command has arrived meanwhile.
     */
    method MatchEvents(budget: nat) returns (ghost trace: seq<Step>)
      requires Inv(View()) && worker.Matching?
      modifies this
      ensures CanRun(old(View()), trace) && View() == Run(old(View()), trace) && Inv(View())
      ensures worker.Parked? && (queue == [] || (queue[0] !in active && Insert(queue[0]) in cmds))
      ensures retrieved + done + queue == old(retrieved) + old(done) + old(queue)
      ensures budget == 0 ==> eventfd == old(eventfd) && cmds == old(cmds) && events == old(events)
    {
      hide Inv, Run, CanRun, IsWorkerStep;
      ghost var start := View();
      ghost var more: seq<Step>;
      var left: nat;
      trace, left := Outsiders(budget);
      while queue != [] && queue[0] in active
        invariant CanRun(start, trace) && View() == Run(start, trace) && Inv(View())
        invariant worker.Matching? && retrieved + done + queue == old(retrieved) + old(done) + old(queue) && left <= budget
        invariant budget == 0 ==> eventfd == old(eventfd) && cmds == old(cmds) && events == old(events)
        decreases |queue|
      {
        RunSnoc(start, trace, Match);
        trace := trace + [Match];
        assert retrieved + done + queue == retrieved + (done + [queue[0]]) + queue[1..];
        Deliver();
        more, left := Outsiders(left);
        RunConcat(start, trace, more);
        trace := trace + more;
      }
      if queue != [] { UnmatchedHeadIsQueued(View()); }
      StepKeepsInv(View(), Park);
      RunSnoc(start, trace, Park);
      trace := trace + [Park];
      worker := Parked;
    }

    /**
     One pass of the worker thread with everybody else running, for any finite number of their steps: it ends
     parked, without a panic, and an event it could not deliver has its command waiting for the next pass.  Left
     alone, it ends with every command done and every finished operation delivered.
     */
    method WorkerPass(budget: nat) returns (ghost trace: seq<Step>)
      requires Inv(View()) && worker.Parked? && eventfd > 0
      modifies this
      ensures CanRun(old(View()), trace) && View() == Run(old(View()), trace) && Inv(View())
      ensures worker.Parked? && !panicked && (queue == [] || Insert(queue[0]) in cmds)
      ensures budget == 0 ==> eventfd == 0 && cmds == [] && events == [] && queue == []
    {
      hide Inv, Run, CanRun;
      ghost var start := View();
      RunNothing(start);
      RunSnoc(start, [], Wake);
      StepKeepsInv(View(), Wake);
      trace := [] + [Wake];
      eventfd, worker := 0, Cmds;
      ghost var part: seq<Step>;
      var left: nat;
      part, left := ProcessCommands(budget);
      RunConcat(start, trace, part);
      trace := trace + part;
      part, left := FetchEvents(left);
      RunConcat(start, trace, part);
      trace := trace + part;
      part := MatchEvents(left);
      RunConcat(start, trace, part);
      trace := trace + part;
    }
  }
}
