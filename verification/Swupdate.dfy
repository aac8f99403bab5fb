/**
 The SWUpdate session: a bounded queue of firmware blocks, a detached task that drains it into the
 backend, and a status task that reports the verdict.  The three run concurrently; every client call
 and every move of a background task is one atomic step of the machine below.
 */
module Swupdate {
  import opened ByteSeq

  const TARGET_QUEUE_BYTES: nat := 2 * 1024 * 1024

  /** `n` divided by `d`, rounded up. */
  function DivCeil(n: nat, d: nat): nat
    requires d > 0
  {
    if n == 0 then 0 else if n <= d then 1 else 1 + DivCeil(n - d, d)
  }

  /** Number of blocks the queue may hold. */
  function QueueCapacity(blockSize: nat): nat {
    var q := DivCeil(TARGET_QUEUE_BYTES, if blockSize > 1 then blockSize else 1);
    if q > 2 then q else 2
  }

  lemma {:induction false} DivCeilBounds(n: nat, d: nat)
    requires n > 0 && d > 0
    ensures var q := DivCeil(n, d); q >= 1 && (q - 1) * d < n <= q * d
  {
    if n > d {
      DivCeilBounds(n - d, d);
      var q := DivCeil(n, d);
      assert (q - 1) * d == (q - 2) * d + d && q * d == (q - 1) * d + d;
    }
  }

  /** A queue full of maximal blocks overshoots the target by less than one block, once it holds more than two. */
  lemma QueueCapacityBounds(blockSize: nat)
    ensures var cap, size := QueueCapacity(blockSize), if blockSize > 1 then blockSize else 1;
            && cap >= 2
            && cap * size >= 2 * 1024 * 1024
            && (cap > 2 ==> (cap - 1) * size < 2 * 1024 * 1024)
  {
    var size := if blockSize > 1 then blockSize else 1;
    DivCeilBounds(TARGET_QUEUE_BYTES, size);
    var q := DivCeil(TARGET_QUEUE_BYTES, size);
    if q <= 2 { assert q * size <= 2 * size; }
  }

  lemma CapacityAtLeastTwo(blockSize: nat)
    ensures QueueCapacity(blockSize) >= 2
  {
  }

  datatype Verdict = Success | Failure

  /** Where the receiving half of the queue is. */
  datatype Drain =
    | NotSpawned              // no transfer, or its connect was aborted
    | Connecting              // held by the status task until the backend is connected
    | Waiting                 // drain task waits for a block
    | Writing(rest: Bytes)    // drain task is inside write_all
    | Stopped                 // receiver dropped after a failed connect or write
    | ShutDown                // receiver dropped after end of stream; writer closed

  /**
   `tx`, `status` and `terminal` are the session's own fields; `outcome` is what the status task has
   returned; `fed`, `discarded` and `written` record the bytes of this transfer that entered the queue,
   that were answered `Closed`, and that reached the backend.
   */
  datatype Session = Session(
    maxBlock: nat,
    tx: bool,
    status: bool,
    terminal: Option<Verdict>,
    queue: seq<Bytes>,
    drain: Drain,
    outcome: Option<Verdict>,
    fed: Bytes,
    discarded: Bytes,
    written: Bytes)
  {
    predicate IsOpen() { tx || status }

    /** The session holds a transfer that was opened and not torn down. */
    predicate Opened() { status || terminal.Some? }

    predicate ReceiverGone() { drain.NotSpawned? || drain.Stopped? || drain.ShutDown? }

    /** A `send` would have to wait for a slot. */
    predicate Full() { tx && !ReceiverGone() && |queue| >= QueueCapacity(maxBlock) }

    /** Every byte handed to the feed side in this transfer, in order. */
    function Handed(): Bytes { fed + discarded }
  }

  function New(maxBlock: nat): Session {
    Session(maxBlock, false, false, None, [], NotSpawned, None, [], [], [])
  }

  datatype Feed = FeedOk(len: nat) | FeedFull(block: Bytes) | FeedClosed | FeedError

  // --- Client calls -------------------------------------------------------

  /** `open`; `restart` is the process-wide restart-pending flag. */
  function Open(s: Session, restart: bool): (r: (Session, bool))
    ensures s.IsOpen() ==> r == (s, true)
    ensures r.1 ==> r.0.IsOpen()
    ensures !r.1 ==> !r.0.IsOpen() && restart
  {
    if s.IsOpen() then (s, true)
    else if restart then (s.(terminal := None), false)
    else (New(s.maxBlock).(tx := true, status := true, drain := Connecting), true)
  }

  function EnsureOpen(s: Session, restart: bool): (Session, bool) {
    if s.tx || s.status || s.terminal.Some? then (s, true) else Open(s, restart)
  }

  function TrySend(s: Session, block: Bytes, restart: bool): (r: (Session, Feed))
    ensures r.1.FeedOk? ==> r.0.tx && !r.0.ReceiverGone() && r.1.len == |block|
    ensures r.1.FeedFull? <==> s.Full()
    ensures r.1.FeedFull? ==> r == (s, FeedFull(block))
    ensures r.1.FeedClosed? ==> !r.0.tx && r.0.fed == s.fed && r.0.queue == s.queue && r.0.Opened() == s.Opened()
    ensures r.1.FeedError? ==> !r.0.IsOpen() && !s.Opened() && restart && r.0 == s.(terminal := None)
  {
    var (o, ok) := EnsureOpen(s, restart);
    if !ok then (o, FeedError)
    else if !o.tx then (o.(discarded := o.discarded + block), FeedClosed)
    else if o.ReceiverGone() then (o.(tx := false, discarded := o.discarded + block), FeedClosed)
    else if |o.queue| >= QueueCapacity(o.maxBlock) then (o, FeedFull(block))
    else (o.(queue := o.queue + [block], fed := o.fed + block), FeedOk(|block|))
  }

  function Eof(s: Session): Session { s.(tx := false) }

  /** `poll_status`: `None` while the status task is still running. */
  function PollStatus(s: Session): (r: (Session, Option<Verdict>))
    ensures r.0.Handed() == s.Handed() && r.0.tx == s.tx
    ensures s.Opened() ==> (r.1.Some? <==> s.terminal.Some? || s.outcome.Some?)
    ensures s.Opened() && r.1.Some? ==> r.0.terminal == r.1
    ensures !s.Opened() ==> r == (s, Some(Failure))
    ensures r.1.None? ==> r.0 == s
  {
    if s.terminal.Some? then (s, s.terminal)
    else if !s.status then (s, Some(Failure))
    else if s.outcome.None? then (s, None)
    else (s.(status := false, terminal := s.outcome), s.outcome)
  }

  /** `abort`: the status task is killed; if it was still connecting, the receiver dies with it. */
  function Abort(s: Session): (r: Session)
    ensures !r.IsOpen() && !r.Opened()
    ensures r.fed == s.fed && r.written == s.written
  {
    s.(tx := false, status := false, terminal := None,
       drain := if s.status && s.drain.Connecting? then NotSpawned else s.drain)
  }

  // --- Background tasks ---------------------------------------------------

  datatype Move =
    | ConnectOk
    | ConnectErr
    | Recv
    | Write(n: nat)
    | WriteErr
    | CloseWriter
    | Settle(verdict: Verdict)

  predicate Enabled(s: Session, m: Move) {
    match m
    case ConnectOk => s.drain.Connecting?
    case ConnectErr => s.drain.Connecting?
    case Recv => s.drain.Waiting? && s.queue != []
    case Write(n) => s.drain.Writing? && n <= |s.drain.rest| && (n == 0 ==> s.drain.rest == [])
    case WriteErr => s.drain.Writing?
    case CloseWriter => s.drain.Waiting? && s.queue == [] && !s.tx
    case Settle(_) => s.status && s.outcome.None? && !s.drain.Connecting?
  }

  /** One move of the connect future, the drain task or the status task (no effect when not enabled). */
  function Do(s: Session, m: Move): Session {
    if !Enabled(s, m) then s
    else
      match m
      case ConnectOk => s.(drain := Waiting)
      case ConnectErr => s.(drain := Stopped, outcome := Some(Failure))
      case Recv => s.(drain := Writing(s.queue[0]), queue := s.queue[1..])
      case Write(n) =>
        var rest := s.drain.rest;
        s.(written := s.written + rest[..n], drain := if n == |rest| then Waiting else Writing(rest[n..]))
      case WriteErr => s.(drain := Stopped)
      case CloseWriter => s.(drain := ShutDown)
      case Settle(v) => s.(outcome := Some(v))
  }

  function DoAll(s: Session, ms: seq<Move>): Session
    decreases |ms|
  {
    if ms == [] then s else DoAll(Do(s, ms[0]), ms[1..])
  }

  datatype Op =
    | OpOpen(restart: bool)
    | OpSend(block: Bytes, restart: bool)   // `try_send`, and `send` once a slot is free
    | OpEof
    | OpPoll
    | OpAbort
    | OpMove(move: Move)

  function Apply(s: Session, op: Op): Session {
    match op
    case OpOpen(restart) => Open(s, restart).0
    case OpSend(b, restart) => TrySend(s, b, restart).0
    case OpEof => Eof(s)
    case OpPoll => PollStatus(s).0
    case OpAbort => Abort(s)
    case OpMove(m) => Do(s, m)
  }

  function RunOps(s: Session, ops: seq<Op>): Session
    decreases |ops|
  {
    if ops == [] then s else RunOps(Apply(s, ops[0]), ops[1..])
  }

  // --- Invariant of every run ---------------------------------------------

  /** No byte is lost, duplicated or reordered between the queue and the backend. */
  predicate StreamAccounted(s: Session) {
    match s.drain
    case NotSpawned => s.written == []
    case Connecting => s.written == [] && s.fed == Concat(s.queue)
    case Waiting => s.fed == s.written + Concat(s.queue)
    case Writing(rest) => s.fed == s.written + (rest + Concat(s.queue))
    case Stopped => s.written <= s.fed
    case ShutDown => s.written == s.fed && s.queue == []
  }

  ghost predicate Inv(s: Session) {
    && StreamAccounted(s)
    && |s.queue| <= QueueCapacity(s.maxBlock)
    && (s.tx ==> s.Opened() && !s.drain.NotSpawned? && !s.drain.ShutDown?)
    && (s.status ==> !s.drain.NotSpawned?)
    && (s.drain.Connecting? ==> s.status && s.outcome.None? && s.terminal.None?)
    && (s.status ==> s.terminal.None?)
    && (s.discarded != [] ==> !s.tx)
  }

  lemma NewInv(maxBlock: nat)
    ensures Inv(New(maxBlock))
  {
  }

  lemma SendKeepsInv(s: Session, block: Bytes, restart: bool)
    requires Inv(s)
    ensures Inv(TrySend(s, block, restart).0)
  {
    hide Inv, EnsureOpen, QueueCapacity;
    OpenKeepsInv(s, restart);
    var o := EnsureOpen(s, restart).0;
    if o.tx && !o.ReceiverGone() && |o.queue| < QueueCapacity(o.maxBlock) { EnqueueKeepsInv(o, block); }
    DiscardKeepsInv(o, block);
  }

  lemma EnqueueKeepsInv(o: Session, block: Bytes)
    requires Inv(o) && o.tx && !o.ReceiverGone() && |o.queue| < QueueCapacity(o.maxBlock)
    ensures Inv(o.(queue := o.queue + [block], fed := o.fed + block))
  {
    hide QueueCapacity, Concat;
    ConcatSnoc(o.queue, block);
  }

  lemma DiscardKeepsInv(o: Session, block: Bytes)
    requires Inv(o)
    ensures Inv(o.(tx := false, discarded := o.discarded + block))
    ensures !o.tx ==> Inv(o.(discarded := o.discarded + block))
  {
    hide QueueCapacity, Concat;
  }

  lemma OpenKeepsInv(s: Session, restart: bool)
    requires Inv(s)
    ensures Inv(Open(s, restart).0) && Inv(EnsureOpen(s, restart).0)
  {
    hide QueueCapacity;
    CapacityAtLeastTwo(s.maxBlock);
  }

  /** In an opened transfer with room, a block is handed over behind the earlier ones, accepted or not. */
  lemma SendHands(s: Session, block: Bytes, restart: bool)
    requires Inv(s) && s.Opened() && !s.Full()
    ensures var (r, feed) := TrySend(s, block, restart);
            (feed.FeedOk? || feed.FeedClosed?) && r.Opened() && Inv(r) && r.Handed() == s.Handed() + block
  {
    SendKeepsInv(s, block, restart);
    assert s.discarded == [] ==> s.fed + block + [] == s.fed + [] + block;
    assert s.fed + s.discarded + block == s.fed + (s.discarded + block);
  }

  lemma WriteKeepsStream(written: Bytes, rest: Bytes, queued: Bytes, n: nat)
    requires n <= |rest|
    ensures written + (rest + queued) == (written + rest[..n]) + (rest[n..] + queued)
    ensures n == |rest| ==> written + (rest + queued) == (written + rest[..n]) + queued
  {
    assert rest == rest[..n] + rest[n..];
  }

  lemma MoveKeepsInv(s: Session, m: Move)
    requires Inv(s)
    ensures Inv(Do(s, m))
    ensures Do(s, m).fed == s.fed && Do(s, m).discarded == s.discarded && Do(s, m).tx == s.tx
    ensures Do(s, m).maxBlock == s.maxBlock && |Do(s, m).queue| <= |s.queue|
    ensures Do(s, m).Opened() == s.Opened()
  {
    if Enabled(s, m) {
      match m
      case Write(n) => WriteKeepsStream(s.written, s.drain.rest, Concat(s.queue), n);
      case Recv => assert Concat(s.queue) == s.queue[0] + Concat(s.queue[1..]);
      case CloseWriter => assert Concat(s.queue) == [];
      case _ =>
    }
  }

  lemma ApplyKeepsInv(s: Session, op: Op)
    requires Inv(s)
    ensures Inv(Apply(s, op))
  {
    match op
    case OpSend(b, restart) => SendKeepsInv(s, b, restart);
    case OpMove(m) => MoveKeepsInv(s, m);
    case _ =>
  }

  lemma {:induction false} RunKeepsInv(s: Session, ops: seq<Op>)
    requires Inv(s)
    ensures Inv(RunOps(s, ops))
    decreases |ops|
  {
    if ops != [] {
      ApplyKeepsInv(s, ops[0]);
      RunKeepsInv(Apply(s, ops[0]), ops[1..]);
    }
  }

  lemma {:induction false} MovesKeepInv(s: Session, ms: seq<Move>)
    requires Inv(s)
    ensures Inv(DoAll(s, ms))
    ensures DoAll(s, ms).fed == s.fed && DoAll(s, ms).discarded == s.discarded && DoAll(s, ms).tx == s.tx
    ensures DoAll(s, ms).maxBlock == s.maxBlock && DoAll(s, ms).Opened() == s.Opened()
    decreases |ms|
  {
    if ms != [] {
      MoveKeepsInv(s, ms[0]);
      MovesKeepInv(Do(s, ms[0]), ms[1..]);
    }
  }

  /** Nothing moves behind a session that was never opened. */
  lemma {:induction false} NewStaysNew(maxBlock: nat, ms: seq<Move>)
    ensures DoAll(New(maxBlock), ms) == New(maxBlock)
    decreases |ms|
  {
    if ms != [] { NewStaysNew(maxBlock, ms[1..]); }
  }

  // --- What reaches the backend -------------------------------------------

  /** `op` starts a new transfer on this session. */
  predicate StartsTransfer(s: Session, op: Op) {
    || (op.OpOpen? && !op.restart && !s.IsOpen())
    || (op.OpSend? && !op.restart && !s.IsOpen() && s.terminal.None?)
  }

  /** The blocks answered `Ok` since the transfer was opened, read off the calls alone. */
  function Accepted(s: Session, ops: seq<Op>, acc: Bytes): Bytes
    decreases |ops|
  {
    if ops == [] then acc
    else
      var base := if StartsTransfer(s, ops[0]) then [] else acc;
      var ok := ops[0].OpSend? && TrySend(s, ops[0].block, ops[0].restart).1.FeedOk?;
      Accepted(Apply(s, ops[0]), ops[1..], if ok then base + ops[0].block else base)
  }

  lemma {:induction false} FedIsAccepted(s: Session, ops: seq<Op>)
    requires Inv(s)
    ensures RunOps(s, ops).fed == Accepted(s, ops, s.fed)
    decreases |ops|
  {
    hide Apply, TrySend, StartsTransfer;
    if ops != [] {
      ApplyKeepsInv(s, ops[0]);
      ApplyFeeds(s, ops[0]);
      var base := if StartsTransfer(s, ops[0]) then [] else s.fed;
      assert base + [] == base;
      FedIsAccepted(Apply(s, ops[0]), ops[1..]);
    }
  }

  /** What one call adds to the transfer. */
  lemma ApplyFeeds(s: Session, op: Op)
    requires Inv(s)
    ensures Apply(s, op).fed ==
            (if StartsTransfer(s, op) then [] else s.fed) +
            (if op.OpSend? && TrySend(s, op.block, op.restart).1.FeedOk? then op.block else [])
  {
    hide Inv, QueueCapacity, Concat;
    assert s.fed + [] == s.fed;
    if op.OpMove? { MoveKeepsInv(s, op.move); }
  }

  /** Main safety result: in every run, what was written is a prefix of the accepted blocks. */
  lemma WrittenIsPrefixOfAccepted(maxBlock: nat, ops: seq<Op>)
    ensures var s := RunOps(New(maxBlock), ops);
            s.written <= Accepted(New(maxBlock), ops, [])
  {
    RunKeepsInv(New(maxBlock), ops);
    FedIsAccepted(New(maxBlock), ops);
    var s := RunOps(New(maxBlock), ops);
    PrefixWritten(s);
  }

  lemma PrefixWritten(s: Session)
    requires Inv(s)
    ensures s.written <= s.fed
  {
  }

  /** Work left for the drain task once the sender is gone. */
  function DrainWork(s: Session): nat {
    match s.drain
    case Waiting => 1 + 2 * |s.queue| + |Concat(s.queue)|
    case Writing(rest) => 2 + |rest| + 2 * |s.queue| + |Concat(s.queue)|
    case _ => 0
  }

  /** After `eof` or `abort`, the drain task always has a move, and each one uses up work. */
  lemma DrainProgress(s: Session, m: Move)
    requires Inv(s) && !s.tx && (s.drain.Waiting? || s.drain.Writing?)
    ensures exists n :: Enabled(s, n) && !n.Settle? && !n.WriteErr?
    ensures Enabled(s, m) && !m.Settle? ==> DrainWork(Do(s, m)) < DrainWork(s)
  {
    var next := if s.drain.Writing? then Write(|s.drain.rest|) else if s.queue == [] then CloseWriter else Recv;
    assert Enabled(s, next);
  }

  /** None of the calls in `ops` starts another transfer. */
  predicate NoNewTransfer(s: Session, ops: seq<Op>)
    decreases |ops|
  {
    ops == [] || (!StartsTransfer(s, ops[0]) && NoNewTransfer(Apply(s, ops[0]), ops[1..]))
  }

  /** The drain task was spawned and no write has failed. */
  predicate Draining(s: Session) { s.drain.Waiting? || s.drain.Writing? || s.drain.ShutDown? }

  lemma ApplyKeepsDraining(s: Session, op: Op)
    requires Inv(s) && !s.tx && Draining(s) && !StartsTransfer(s, op) && op != OpMove(WriteErr)
    ensures var e := Apply(s, op); Inv(e) && !e.tx && Draining(e) && e.fed == s.fed
  {
    hide QueueCapacity, StreamAccounted;
    ApplyKeepsInv(s, op);
    if op.OpMove? { MoveKeepsInv(s, op.move); }
  }

  /**
   Main delivery result: once the drain task exists and the sender is dropped (`eof` or `abort`), every
   interleaving of the background tasks with further calls (sends answered Closed, status polls, a repeated
   `eof`, an `abort`) that has no write error and leaves the drain task nothing to do has closed the writer
   after delivering every accepted byte.
   */
  lemma {:induction false} EofDelivers(s: Session, ops: seq<Op>)
    requires Inv(s) && !s.tx && Draining(s)
    requires NoNewTransfer(s, ops) && OpMove(WriteErr) !in ops
    ensures var e := RunOps(s, ops);
            && e.fed == s.fed && e.written <= s.fed
            && ((forall m: Move :: Enabled(e, m) ==> m.Settle? || m.WriteErr?) ==> e.drain.ShutDown? && e.written == s.fed)
    decreases |ops|
  {
    hide Apply;
    if ops != [] {
      ApplyKeepsDraining(s, ops[0]);
      EofDelivers(Apply(s, ops[0]), ops[1..]);
    } else {
      PrefixWritten(s);
      if s.drain.Waiting? || s.drain.Writing? { DrainProgress(s, Recv); }
    }
  }

  /** Everything the background tasks can still do before a client call. */
  function BackgroundWork(s: Session): nat {
    (if s.outcome.None? then 1 else 0) +
    (if s.drain.Connecting? then 2 + 2 * |s.queue| + |Concat(s.queue)| else DrainWork(s))
  }

  /** The background tasks cannot move for ever. */
  lemma BackgroundTires(s: Session, m: Move)
    requires Enabled(s, m)
    ensures BackgroundWork(Do(s, m)) < BackgroundWork(s)
  {
  }

  /** A producer blocked in `send` is released by every schedule: background tasks that cannot go on have freed a slot or closed the queue. */
  lemma SendUnblocks(s: Session, ms: seq<Move>)
    requires Inv(s)
    ensures var e := DoAll(s, ms);
            (forall m: Move :: Enabled(e, m) ==> m.Settle?) ==> !e.Full()
  {
    MovesKeepInv(s, ms);
    var e := DoAll(s, ms);
    if e.Full() {
      var m := if e.drain.Connecting? then ConnectErr else if e.drain.Waiting? then Recv else WriteErr;
      assert Enabled(e, m);
    }
  }

  lemma SomeMovesUnblock(s: Session)
    requires Inv(s)
    ensures exists ms :: !DoAll(s, ms).Full()
  {
    if !s.Full() {
      assert !DoAll(s, []).Full();
    } else {
      var m := if s.drain.Connecting? then ConnectErr else if s.drain.Waiting? then Recv else WriteErr;
      assert DoAll(Do(s, m), []) == Do(s, m);
      assert DoAll(s, [m]) == Do(s, m);
    }
  }

  /**
   `finished` returns under every schedule: background tasks that cannot go on have produced the verdict, and it
   is the one the status task settled on.
   */
  lemma VerdictArrives(s: Session, ms: seq<Move>)
    ensures var e := DoAll(s, ms);
            (forall m: Move :: !Enabled(e, m)) ==> PollStatus(e).1.Some?
    ensures Inv(s) && s.Opened() ==> PollStatus(DoAll(s, ms)).1 == RuledAll(PollStatus(s).1, s, ms)
  {
    var e := DoAll(s, ms);
    if PollStatus(e).1.None? { assert Enabled(e, if e.drain.Connecting? then ConnectErr else Settle(Success)); }
    if Inv(s) && s.Opened() { MovesRule(s, PollStatus(s).1, ms); }
  }

  lemma SomeMovesSettle(s: Session)
    ensures exists ms :: PollStatus(DoAll(s, ms)).1.Some?
  {
    if PollStatus(s).1.Some? {
      assert PollStatus(DoAll(s, [])).1.Some?;
    } else {
      var m := if s.drain.Connecting? then ConnectErr else Settle(Success);
      assert DoAll(Do(s, m), []) == Do(s, m);
      assert PollStatus(DoAll(s, [m])).1.Some?;
    }
  }

  // --- Verdict and end of stream ------------------------------------------

  /** `op` neither tears the transfer down nor starts another one. */
  predicate SameTransfer(s: Session, op: Op) {
    !op.OpAbort? && (op.OpOpen? ==> s.IsOpen())
  }

  predicate SameTransferRun(s: Session, ops: seq<Op>)
    decreases |ops|
  {
    ops == [] || (SameTransfer(s, ops[0]) && SameTransferRun(Apply(s, ops[0]), ops[1..]))
  }

  /** Once observed, the verdict of a transfer never changes. */
  lemma {:induction false} VerdictIsStable(s: Session, ops: seq<Op>)
    requires Inv(s) && s.Opened() && PollStatus(s).1.Some?
    requires SameTransferRun(s, ops)
    ensures PollStatus(RunOps(s, ops)).1 == PollStatus(s).1
    decreases |ops|
  {
    if ops != [] {
      ApplyKeepsInv(s, ops[0]);
      var next := Apply(s, ops[0]);
      assert next.Opened() && PollStatus(next).1 == PollStatus(s).1;
      VerdictIsStable(next, ops[1..]);
    }
  }

  /** After `eof`, no later call of the same transfer enqueues, reopens or reconnects. */
  lemma {:induction false} EofIsFinal(s: Session, ops: seq<Op>)
    requires Inv(s) && s.Opened() && !s.tx
    requires SameTransferRun(s, ops)
    ensures var e := RunOps(s, ops);
            && !e.tx && e.Opened() && e.fed == s.fed && |e.queue| <= |s.queue|
            && (e.drain.Connecting? ==> s.drain.Connecting?)
            && forall b, restart :: TrySend(e, b, restart).1.FeedClosed?
    decreases |ops|
  {
    if ops != [] {
      ApplyKeepsInv(s, ops[0]);
      if ops[0].OpMove? { MoveKeepsInv(s, ops[0].move); }
      var next := Apply(s, ops[0]);
      assert !next.tx && next.Opened() && next.fed == s.fed;
      EofIsFinal(next, ops[1..]);
    }
  }

  // --- Which verdict --------------------------------------------------------

  /**
   The ruling on the transfer after the move `m`, when it was `r` before.  The status task rules once, by
   settling; a connect that failed is ruled a failure.
   */
  function Ruled(r: Option<Verdict>, s: Session, m: Move): Option<Verdict> {
    if Enabled(s, m) && m.Settle? then Some(m.verdict)
    else if Enabled(s, m) && m.ConnectErr? then Some(Failure)
    else r
  }

  function RuledAll(r: Option<Verdict>, s: Session, ms: seq<Move>): Option<Verdict>
    decreases |ms|
  {
    if ms == [] then r else RuledAll(Ruled(r, s, ms[0]), Do(s, ms[0]), ms[1..])
  }

  /** The ruling after a whole run, read off the moves; a new transfer starts without one. */
  function Ruling(r: Option<Verdict>, s: Session, ops: seq<Op>): Option<Verdict>
    decreases |ops|
  {
    if ops == [] then r
    else
      var now := if StartsTransfer(s, ops[0]) then None else if ops[0].OpMove? then Ruled(r, s, ops[0].move) else r;
      Ruling(now, Apply(s, ops[0]), ops[1..])
  }

  /** What a client would be told about the transfer, if there is one, is the ruling `r`. */
  ghost predicate Knows(s: Session, r: Option<Verdict>) {
    Inv(s) && (s.Opened() ==> PollStatus(s).1 == r)
  }

  lemma MoveRules(s: Session, r: Option<Verdict>, m: Move)
    requires Knows(s, r)
    ensures Knows(Do(s, m), Ruled(r, s, m)) && Do(s, m).Opened() == s.Opened()
  {
    MoveKeepsInv(s, m);
  }

  lemma {:induction false} MovesRule(s: Session, r: Option<Verdict>, ms: seq<Move>)
    requires Knows(s, r)
    ensures Knows(DoAll(s, ms), RuledAll(r, s, ms)) && DoAll(s, ms).Opened() == s.Opened()
    decreases |ms|
  {
    hide Do, Ruled, Knows;
    if ms != [] {
      MoveRules(s, r, ms[0]);
      MovesRule(Do(s, ms[0]), Ruled(r, s, ms[0]), ms[1..]);
    }
  }

  lemma OpRules(s: Session, r: Option<Verdict>, op: Op)
    requires Knows(s, r)
    ensures Knows(Apply(s, op),
                  if StartsTransfer(s, op) then None else if op.OpMove? then Ruled(r, s, op.move) else r)
  {
    hide QueueCapacity, StreamAccounted, Do;
    ApplyKeepsInv(s, op);
    if op.OpMove? { MoveRules(s, r, op.move); }
  }

  /** Main verdict result: in every run, the verdict a client is told is the one the status task settled on. */
  lemma {:induction false} RulingIsObserved(s: Session, r: Option<Verdict>, ops: seq<Op>)
    requires Knows(s, r)
    ensures Knows(RunOps(s, ops), Ruling(r, s, ops))
    decreases |ops|
  {
    hide Apply, Knows, Ruled, StartsTransfer;
    if ops != [] {
      OpRules(s, r, ops[0]);
      var now := if StartsTransfer(s, ops[0]) then None else if ops[0].OpMove? then Ruled(r, s, ops[0].move) else r;
      RulingIsObserved(Apply(s, ops[0]), now, ops[1..]);
    }
  }

  /** A settled verdict, or a failed connect, is what the rest of the transfer is told. */
  lemma SettledStands(s: Session, m: Move, ops: seq<Op>)
    requires Inv(s) && Enabled(s, m) && (m.Settle? || m.ConnectErr?)
    requires SameTransferRun(Do(s, m), ops)
    ensures PollStatus(RunOps(Do(s, m), ops)).1 == Some(if m.Settle? then m.verdict else Failure)
  {
    MoveKeepsInv(s, m);
    VerdictIsStable(Do(s, m), ops);
  }
}
