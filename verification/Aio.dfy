/**
 The Linux AIO driver: a submitter, a worker thread and the kernel share a command channel, a completion
 channel and an eventfd.  Every shared access is one step; runs interleave the steps in any order.
 */
module Aio {

  const ID_LIMIT: nat := 0x1_0000_0000_0000_0000

  datatype Cmd = Insert(id: nat) | Remove(id: nat) | Cancel(id: nat) | CancelAll

  /** Where the submitter is inside a call. */
  datatype SubmitPc =
    | Idle
    | Sent(id: nat)       // Insert sent, io_submit not yet called
    | Rejected(id: nat)   // io_submit refused, Remove not yet sent
    | Owes                // eventfd write still to come

  datatype WorkerPc = Parked | Cmds | Fetching | Matching

  datatype Driver = Driver(
    queueLength: nat,
    space: nat,
    nextId: nat,
    submits: nat,            // submissions since the driver was created
    pc: SubmitPc,
    cmds: seq<Cmd>,
    done: seq<nat>,
    retrieved: seq<nat>,
    removed: seq<nat>,       // ids taken back after a refused io_submit
    eventfd: nat,
    worker: WorkerPc,
    active: set<nat>,
    queue: seq<nat>,         // fetched events not yet matched
    inflight: set<nat>,
    events: seq<nat>,        // completed, not yet fetched
    signals: nat,            // eventfd signals the kernel has still to deliver
    panicked: bool)

  function New(queueLength: nat): Driver {
    Driver(queueLength, queueLength, 0, 0, Idle, [], [], [], [], 0, Parked, {}, [], {}, [], 0, false)
  }

  datatype Step =
    | BeginSubmit | IoSubmit(accepted: bool) | SendRemove | WriteFd
    | RequestCancel(id: nat) | RequestCancelAll | Retrieve
    | Complete(id: nat) | Signal
    | Wake | CancelOne(id: nat) | RunCmd | EndCmds | Fetch | EndFetch | Match | Park

  predicate Enabled(s: Driver, st: Step) {
    match st
    case BeginSubmit => s.pc.Idle? && s.space > 0
    case IoSubmit(_) => s.pc.Sent?
    case SendRemove => s.pc.Rejected?
    case WriteFd => s.pc.Owes?
    case RequestCancel(_) => s.pc.Idle?
    case RequestCancelAll => s.pc.Idle?
    case Retrieve => s.pc.Idle? && s.done != []
    case Complete(id) => id in s.inflight
    case Signal => s.signals > 0
    case Wake => s.worker.Parked? && s.eventfd > 0
    // `io_cancel` may succeed for an operation that is registered and in flight; each success is delivered at once.
    case CancelOne(id) =>
      && s.worker.Cmds? && s.cmds != [] && (s.cmds[0] == Cancel(id) || s.cmds[0].CancelAll?)
      && id in s.active && id in s.inflight
    case RunCmd => s.worker.Cmds? && s.cmds != []
    case EndCmds => s.worker.Cmds? && s.cmds == []
    case Fetch => s.worker.Fetching? && s.events != []
    case EndFetch => s.worker.Fetching? && s.events == []
    case Match => s.worker.Matching? && s.queue != [] && s.queue[0] in s.active
    case Park => s.worker.Matching? && (s.queue == [] || s.queue[0] !in s.active)
  }

  function Do(s: Driver, st: Step): Driver
    requires Enabled(s, st)
  {
    match st
    case BeginSubmit =>
      s.(nextId := (s.nextId + 1) % ID_LIMIT, submits := s.submits + 1,
         cmds := s.cmds + [Insert(s.nextId)], pc := Sent(s.nextId))
    case IoSubmit(accepted) =>
      if accepted then
        s.(space := if s.space > 0 then s.space - 1 else 0, inflight := s.inflight + {s.pc.id}, pc := Owes)
      else s.(pc := Rejected(s.pc.id))
    case SendRemove => s.(cmds := s.cmds + [Remove(s.pc.id)], pc := Owes)
    case WriteFd => s.(eventfd := s.eventfd + 1, pc := Idle)
    case RequestCancel(id) => s.(cmds := s.cmds + [Cancel(id)], pc := Owes)
    case RequestCancelAll => s.(cmds := s.cmds + [CancelAll], pc := Owes)
    case Retrieve => s.(space := s.space + 1, retrieved := s.retrieved + [s.done[0]], done := s.done[1..])
    case Complete(id) => s.(inflight := s.inflight - {id}, events := s.events + [id], signals := s.signals + 1)
    case Signal => s.(signals := s.signals - 1, eventfd := s.eventfd + 1)
    case Wake => s.(eventfd := 0, worker := Cmds)
    case CancelOne(id) => s.(active := s.active - {id}, inflight := s.inflight - {id}, done := s.done + [id])
    case RunCmd =>
      var rest := s.(cmds := s.cmds[1..]);
      (match s.cmds[0]
       case Insert(id) => rest.(active := s.active + {id}, panicked := s.panicked || id in s.active)
       case Remove(id) =>
         rest.(active := s.active - {id}, removed := s.removed + [id], panicked := s.panicked || id !in s.active)
       case _ => rest)
    case EndCmds => s.(worker := Fetching)
    case Fetch =>
      var n := if |s.events| < 16 then |s.events| else 16;
      s.(queue := s.queue + s.events[..n], events := s.events[n..])
    case EndFetch => s.(worker := Matching)
    case Match => s.(active := s.active - {s.queue[0]}, done := s.done + [s.queue[0]], queue := s.queue[1..])
    case Park => s.(worker := Parked)
  }

  /** `steps` is an interleaving that `s` can take. */
  predicate CanRun(s: Driver, steps: seq<Step>)
    decreases |steps|
  {
    steps == [] || (Enabled(s, steps[0]) && CanRun(Do(s, steps[0]), steps[1..]))
  }

  function Run(s: Driver, steps: seq<Step>): Driver
    requires CanRun(s, steps)
    decreases |steps|
  {
    if steps == [] then s else Run(Do(s, steps[0]), steps[1..])
  }
}
