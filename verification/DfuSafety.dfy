/** What holds in every reachable state of the DFU handler, whatever the host sends. */
module DfuSafety {
  import opened ByteSeq
  import opened Swupdate
  import opened Dfu
  import opened DfuStream
  import Crc32

  // --- Every reachable state ----------------------------------------------

  /** A held block is not empty, implies a live queue, and never coexists with dfuDNLOAD-IDLE. */
  predicate Held(d: Handler) {
    && (d.pending.Some? ==> d.sink.tx && d.pending.value != [])
    && (d.state.DnloadIdle? ==> d.pending.None?)
  }

  lemma PushKeepsHeld(d: Handler, restart: bool)
    requires d.pending.Some? ==> d.pending.value != []
    requires d.pending.Some? && d.state.DnloadIdle? ==> d.sink.tx && !d.sink.Full()
    ensures var (e, ok) := PushPending(d, restart);
            && Held(e)
            && e == d.(sink := e.sink, pending := e.pending)
            && (e.pending.Some? ==> d.pending.Some? && e.sink == d.sink && d.sink.Full())
            && (!ok ==> d.pending.Some? && !d.sink.Opened())
            && (d.pending.Some? && d.sink.tx ==> ok)
  {
  }

  lemma PollKeepsHeld(d: Handler, restart: bool)
    requires Held(d)
    ensures Held(Poll(d, restart).0) && !Poll(d, restart).1.Refused?
    ensures Poll(d, restart).0.config == d.config
    ensures Poll(d, restart).0.state.DnloadIdle? ==> d.state.DnloadIdle?
  {
    hide PushPending;
    PushKeepsHeld(d, restart);
  }

  lemma SubmitKeepsHeld(d: Handler, chunk: Bytes, restart: bool)
    requires !d.state.DnloadIdle? && chunk != []
    requires d.pending.Some? ==> d.sink.tx
    ensures var e := SubmitChunk(d, chunk, restart).0; Held(e) && e.config == d.config
  {
    hide PushPending;
    PushKeepsHeld(d.(pending := Some(chunk)), restart);
  }

  lemma {:induction false} DuringKeepsHeld(d: Handler, ms: seq<Move>)
    ensures During(d, ms).sink.tx == d.sink.tx && (Held(d) ==> Held(During(d, ms)))
    decreases |ms|
  {
    if ms != [] { DuringKeepsHeld(d.(sink := Do(d.sink, ms[0])), ms[1..]); }
  }

  lemma ServeKeepsHeld(d: Handler, req: Request, restart: bool)
    requires Held(d)
    ensures var e := Serve(d, req, restart).d; Held(e) && e.config == d.config
  {
    hide PushPending, SubmitChunk, HasValidSuffix, StatusReply, Crc32.Update, DoAll;
    match req
    case Dnload(data, ms) =>
      DuringKeepsHeld(d, ms);
      var buf := d.tail + data;
      if |buf| > SUFFIX_LEN {
        var flush := |buf| - SUFFIX_LEN;
        SubmitKeepsHeld(During(d, ms).(state := DnloadSync, status := Ok, tail := buf[flush..],
                                       crc := Crc32.Update(d.crc, buf[..flush])), buf[..flush], restart);
      }
    case DnloadEmpty =>
      var m := d.(state := Manifest, status := Ok, tail := []);
      PushKeepsHeld(m, restart);
      if d.tail != [] { SubmitKeepsHeld(m, d.tail, restart); }
    case _ =>
  }

  lemma StepKeepsHeld(d: Handler, req: Request, restart: bool)
    requires Held(d)
    ensures var e := Step(d, req, restart).d; Held(e) && e.config == d.config
  {
    hide Poll, Serve;
    if !req.Reset? { PollKeepsHeld(d, restart); ServeKeepsHeld(Poll(d, restart).0, req, restart); }
    else { ServeKeepsHeld(d, req, restart); }
  }

  lemma {:induction false} RunKeepsHeld(c: Config, inputs: seq<Input>)
    ensures Held(Run(Fresh(c), inputs)) && Run(Fresh(c), inputs).config == c
    decreases |inputs|
  {
    hide Step;
    if inputs != [] {
      var front, i := inputs[..|inputs| - 1], inputs[|inputs| - 1];
      RunKeepsHeld(c, front);
      var d := Run(Fresh(c), front);
      match i
      case Env(m) =>
      case Req(req, restart) => StepKeepsHeld(d, req, restart);
    }
  }

  // --- The sequencing abort -------------------------------------------------

  /** The request finds the held block still stuck and needs the slot for another one. */
  predicate NeedsBusySlot(d: Handler, req: Request) {
    && d.pending.Some? && d.sink.Full()
    && PollStatus(d.sink).1 != Some(Failure)
    && (PollStatus(d.sink).1 == Some(Success) ==> !d.state.Manifest?)
    && (match req
        case Dnload(data, _) => !IsFinishing(d.state) && |d.tail| + |data| > SUFFIX_LEN
        case DnloadEmpty => d.tail != [] && !HasValidSuffix(d.crc, d.tail)
        case _ => false)
  }

  lemma PollWhenStuck(d: Handler, restart: bool)
    requires d.pending.Some?
    ensures !d.sink.Full() ==> Poll(d, restart).0.pending.None?
    ensures d.sink.Full() && PollStatus(d.sink).1 == Some(Failure) ==> Poll(d, restart).0.pending.None?
    ensures d.sink.Full() && PollStatus(d.sink).1 == Some(Success) && d.state.Manifest? ==> Poll(d, restart).0.pending.None?
    ensures d.sink.Full() && PollStatus(d.sink).1 != Some(Failure)
              && (PollStatus(d.sink).1 == Some(Success) ==> !d.state.Manifest?) ==>
              Poll(d, restart) == (d.(sink := PollStatus(d.sink).0), Fine)
  {
  }

  lemma ServeViolation(d: Handler, req: Request, restart: bool)
    ensures Serve(d, req, restart).note.Violation? <==>
              && d.pending.Some?
              && (match req
                  case Dnload(data, _) => !IsFinishing(d.state) && |d.tail| + |data| > SUFFIX_LEN
                  case DnloadEmpty => d.tail != [] && !HasValidSuffix(d.crc, d.tail)
                  case _ => false)
  {
    hide PushPending, HasValidSuffix, StatusReply, Crc32.Update, DoAll;
  }

  lemma PollKeepsNoPending(d: Handler, restart: bool)
    requires d.pending.None?
    ensures Poll(d, restart).0.pending.None?
  {
  }

  /** The abort for "more data while busy" happens exactly when the held block is still stuck; the host can tell from dfuDNBUSY. */
  lemma ViolationExactly(d: Handler, req: Request, restart: bool)
    ensures Step(d, req, restart).note.Violation? <==> NeedsBusySlot(d, req)
  {
    hide Poll, Serve, HasValidSuffix, PollStatus, QueueCapacity;
    var a := Poll(d, restart).0;
    if req.Reset? {
      ServeViolation(d, req, restart);
    } else {
      ServeViolation(a, req, restart);
      if d.pending.Some? { PollWhenStuck(d, restart); } else { PollKeepsNoPending(d, restart); }
    }
  }

  /** In every reachable state, a host that sees dfuDNLOAD-IDLE may send a block or end the file. */
  lemma IdleHostNeverAborted(c: Config, inputs: seq<Input>, req: Request, restart: bool)
    ensures var d := Run(Fresh(c), inputs);
            d.state.DnloadIdle? ==> d.pending.None? && !Step(d, req, restart).note.Violation?
  {
    hide Step, PollStatus;
    RunKeepsHeld(c, inputs);
    ViolationExactly(Run(Fresh(c), inputs), req, restart);
  }

  // --- Hosts that follow the protocol ----------------------------------------

  /** What a compliant host sends, given the state GETSTATUS last reported. */
  predicate Polite(s: State, req: Request) {
    match req
    case Dnload(_, _) => s.DfuIdle? || s.DnloadIdle?
    case DnloadLost(_) => s.DfuIdle? || s.DnloadIdle?
    case DnloadEmpty => s.DfuIdle? || s.DnloadIdle?
    case ClrStatus => s.Error? || IsFinishing(s)
    case Upload(_) => s.DfuIdle? || s.UploadIdle?
    case Detach => s.DfuIdle?
    case _ => true
  }

  predicate PoliteRun(d: Handler, inputs: seq<Input>)
    decreases |inputs|
  {
    inputs == [] ||
    var front, i := inputs[..|inputs| - 1], inputs[|inputs| - 1];
    PoliteRun(d, front) && (i.Req? ==> Polite(Run(d, front).state, i.req))
  }

  /** Outside a busy download, manifestation or an error, nothing is held. */
  predicate Calm(d: Handler) {
    d.state.DnloadSync? || d.state.DnBusy? || d.state.Manifest? || d.state.Error? || d.pending.None?
  }

  lemma PollKeepsCalm(d: Handler, restart: bool)
    requires Held(d) && Calm(d)
    ensures var (a, note) := Poll(d, restart);
            && Calm(a)
            && (a.state == d.state || a.state.Error? || (d.state.Manifest? && a.state.ManifestSync?))
            && (a.state == d.state || a.pending.None?)
  {
    hide PushPending;
    PushKeepsHeld(d, restart);
  }

  lemma ServeKeepsCalm(d: Handler, s: State, req: Request, restart: bool)
    requires Held(d) && Calm(d) && Polite(s, req)
    requires d.state == s || (d.pending.None? && (d.state.Error? || (s.Manifest? && d.state.ManifestSync?)))
    ensures Calm(Serve(d, req, restart).d)
  {
    hide PushPending, HasValidSuffix, StatusReply, Crc32.Update, DoAll;
    match req
    case Dnload(data, ms) =>
      var buf := d.tail + data;
      if |buf| > SUFFIX_LEN {
        var flush := |buf| - SUFFIX_LEN;
        PushKeepsHeld(During(d, ms).(state := DnloadSync, status := Ok, tail := buf[flush..],
                                     crc := Crc32.Update(d.crc, buf[..flush]), pending := Some(buf[..flush])), restart);
      }
    case DnloadEmpty =>
      var m := d.(state := Manifest, status := Ok, tail := []);
      PushKeepsHeld(m, restart);
      if d.tail != [] { PushKeepsHeld(m.(pending := Some(d.tail)), restart); }
    case _ =>
  }

  lemma {:induction false} PoliteRunIsCalm(c: Config, inputs: seq<Input>)
    requires PoliteRun(Fresh(c), inputs)
    ensures Calm(Run(Fresh(c), inputs))
    decreases |inputs|
  {
    hide Poll, Serve;
    if inputs != [] {
      var front, i := inputs[..|inputs| - 1], inputs[|inputs| - 1];
      PoliteRunIsCalm(c, front);
      RunKeepsHeld(c, front);
      var d := Run(Fresh(c), front);
      if i.Req? && !i.req.Reset? {
        PollKeepsHeld(d, i.restart);
        PollKeepsCalm(d, i.restart);
        ServeKeepsCalm(Poll(d, i.restart).0, d.state, i.req, i.restart);
      } else if i.Req? {
        ServeKeepsCalm(d, d.state, i.req, i.restart);
      }
    }
  }

  /** A host that only acts on the reported state is never cut off by the sequencing abort, in any run. */
  lemma PoliteHostNeverAborted(c: Config, inputs: seq<Input>, req: Request, restart: bool)
    requires PoliteRun(Fresh(c), inputs)
    requires Polite(Run(Fresh(c), inputs).state, req)
    ensures !Step(Run(Fresh(c), inputs), req, restart).note.Violation?
  {
    hide Step, PollStatus;
    PoliteRunIsCalm(c, inputs);
    ViolationExactly(Run(Fresh(c), inputs), req, restart);
  }

  // --- Isolation between transfers ---------------------------------------------

  lemma {:induction false} RunAppend(d: Handler, xs: seq<Input>, ys: seq<Input>)
    ensures Run(d, xs + ys) == Run(Run(d, xs), ys)
    decreases |ys|
  {
    hide Take;
    if ys == [] {
      assert xs + ys == xs;
    } else {
      var front := ys[..|ys| - 1];
      assert (xs + ys)[..|xs + ys| - 1] == xs + front;
      RunAppend(d, xs, front);
    }
  }

  /** DFU_ABORT, and every reset the transport forces. */
  predicate TearsDown(d: Handler, req: Request) {
    req.Abort? || req.Reset? || (req == DnloadLost(true) && !IsFinishing(d.state))
  }

  lemma TearDownIsFresh(d: Handler, req: Request, restart: bool)
    requires Held(d) && TearsDown(d, req)
    ensures Step(d, req, restart).d == Fresh(d.config)
  {
    hide Poll;
    PollKeepsHeld(d, restart);
    if !IsFinishing(d.state) { PollNotFinishing(d, restart); }
  }

  lemma PollNotFinishing(d: Handler, restart: bool)
    requires !IsFinishing(d.state)
    ensures !IsFinishing(Poll(d, restart).0.state)
  {
  }

  /**
   Nothing from before a teardown survives it: the handler goes on exactly as a new one would, so a later
   clean transfer hands over its own bytes and no others.
   */
  lemma TeardownIsolates(c: Config, before: seq<Input>, req: Request, restart: bool, after: seq<Input>)
    requires TearsDown(Run(Fresh(c), before), req)
    ensures Run(Fresh(c), before + [Req(req, restart)] + after) == Run(Fresh(c), after)
    ensures CleanRun(Fresh(c), after) ==>
              var d := Run(Fresh(c), before + [Req(req, restart)] + after);
              d.sink.Handed() + PendingBytes(d) + d.tail == Payload(after)
  {
    hide Step;
    var i := Req(req, restart);
    RunKeepsHeld(c, before);
    TearDownIsFresh(Run(Fresh(c), before), req, restart);
    assert (before + [i])[..|before + [i]| - 1] == before;
    assert Run(Fresh(c), before + [i]) == Fresh(c);
    RunAppend(Fresh(c), before + [i], after);
    if CleanRun(Fresh(c), after) { CleanRunStreams(c, after); }
  }

  /**
   CLRSTATUS outside Error and manifestation does not isolate: what was already handed over or held stays
   in the stream, and the next file is appended to it.  Only a file of at most 16 bytes leaves no trace.
   */
  lemma ClrStatusKeepsOldBytes(c: Config, before: seq<Input>, restart: bool, after: seq<Input>)
    requires CleanRun(Fresh(c), before)
    requires !Run(Fresh(c), before).state.Error?
    requires Step(Run(Fresh(c), before), ClrStatus, restart).note.Fine?
    requires CleanRun(Step(Run(Fresh(c), before), ClrStatus, restart).d, after)
    ensures var d := Run(Step(Run(Fresh(c), before), ClrStatus, restart).d, after);
            var kept := Payload(before)[..|Payload(before)| - Min(SUFFIX_LEN, |Payload(before)|)];
            && d.sink.Handed() + PendingBytes(d) + d.tail == kept + Payload(after)
            && (d.sink.Handed() + PendingBytes(d) + d.tail == Payload(after) <==> |Payload(before)| <= SUFFIX_LEN)
  {
    hide Poll, Crc32.Update;
    var d, p := Run(Fresh(c), before), Payload(before);
    CleanRunStreams(c, before);
    PollKeepsStream(d, [], p, restart);
    PollKeepsNotError(d, restart);
    var a := Poll(d, restart).0;
    var kept := p[..|p| - |a.tail|];
    SplitTail([], p, a.sink.Handed() + PendingBytes(a), a.tail);
    var cleared := a.(status := Ok, state := DfuIdle, tail := [], crc := Crc32.INIT);
    assert kept + [] == kept && [] + kept == kept;
    HashOfNothing();
    assert StreamInv(cleared, kept, []);
    assert cleared == Step(d, ClrStatus, restart).d;
    CleanRunFrom(cleared, kept, [], after);
    assert [] + Payload(after) == Payload(after);
  }

  lemma HashOfNothing()
    ensures Crc32.Update(Crc32.INIT, []) == Crc32.INIT
  {
  }

  lemma PollKeepsNotError(d: Handler, restart: bool)
    requires !d.state.Error? && Poll(d, restart).1.Fine?
    ensures !Poll(d, restart).0.state.Error?
  {
  }

  // --- Buffered memory ----------------------------------------------------------

  predicate BlocksFit(blocks: seq<Bytes>, n: nat) {
    forall i :: 0 <= i < |blocks| ==> |blocks[i]| <= n
  }

  ghost predicate Fits(d: Handler) {
    var ts := d.config.transferSize;
    && d.sink.maxBlock == ts && BlocksFit(d.sink.queue, ts)
    && |d.sink.queue| <= QueueCapacity(ts)
    && |PendingBytes(d)| <= ts && |d.tail| <= SUFFIX_LEN
  }

  lemma PushKeepsFit(d: Handler, restart: bool)
    requires Fits(d)
    ensures var e := PushPending(d, restart).0; Fits(e) && e.config == d.config && e.tail == d.tail
  {
    hide QueueCapacity, TrySend;
    if d.pending.Some? { SendKeepsFit(d.sink, d.pending.value, restart, d.config.transferSize); }
  }

  lemma SendKeepsFit(s: Session, block: Bytes, restart: bool, ts: nat)
    requires s.maxBlock == ts && BlocksFit(s.queue, ts) && |s.queue| <= QueueCapacity(ts) && |block| <= ts
    ensures var r := TrySend(s, block, restart).0;
            r.maxBlock == ts && BlocksFit(r.queue, ts) && |r.queue| <= QueueCapacity(ts)
  {
    hide QueueCapacity;
    CapacityAtLeastTwo(ts);
    var o := EnsureOpen(s, restart).0;
    assert o.queue == s.queue || o.queue == [];
  }

  lemma PollKeepsFit(d: Handler, restart: bool)
    requires Fits(d)
    ensures Fits(Poll(d, restart).0) && Poll(d, restart).0.config == d.config
  {
    hide PushPending, QueueCapacity;
    PushKeepsFit(d, restart);
    CapacityAtLeastTwo(d.config.transferSize);
  }

  lemma SubmitKeepsFit(d: Handler, chunk: Bytes, restart: bool)
    requires Fits(d) && |chunk| <= d.config.transferSize
    ensures var e := SubmitChunk(d, chunk, restart).0; Fits(e) && e.config == d.config
  {
    hide PushPending, QueueCapacity;
    CapacityAtLeastTwo(d.config.transferSize);
    PushKeepsFit(d.(pending := Some(chunk)), restart);
  }

  lemma {:induction false} DuringKeepsFit(d: Handler, ms: seq<Move>)
    requires Fits(d)
    ensures Fits(During(d, ms))
    decreases |ms|
  {
    hide QueueCapacity;
    if ms != [] {
      assert BlocksFit(Do(d.sink, ms[0]).queue, d.config.transferSize);
      DuringKeepsFit(d.(sink := Do(d.sink, ms[0])), ms[1..]);
    }
  }

  lemma ServeKeepsFit(d: Handler, req: Request, restart: bool)
    requires Fits(d) && d.config.transferSize >= SUFFIX_LEN
    requires req.Dnload? ==> |req.data| <= d.config.transferSize
    ensures var e := Serve(d, req, restart).d; Fits(e) && e.config == d.config
  {
    hide PushPending, SubmitChunk, QueueCapacity, HasValidSuffix, StatusReply, Crc32.Update, DoAll;
    CapacityAtLeastTwo(d.config.transferSize);
    match req
    case Dnload(data, ms) =>
      DuringKeepsFit(d, ms);
      var buf := d.tail + data;
      if |buf| > SUFFIX_LEN {
        var flush := |buf| - SUFFIX_LEN;
        SubmitKeepsFit(During(d, ms).(state := DnloadSync, status := Ok, tail := buf[flush..],
                          crc := Crc32.Update(d.crc, buf[..flush])), buf[..flush], restart);
      }
    case DnloadEmpty =>
      var m := d.(state := Manifest, status := Ok, tail := []);
      PushKeepsFit(m, restart);
      SubmitKeepsFit(m, d.tail, restart);
    case _ =>
  }

  lemma StepKeepsFit(d: Handler, req: Request, restart: bool)
    requires Fits(d) && d.config.transferSize >= SUFFIX_LEN
    requires req.Dnload? ==> |req.data| <= d.config.transferSize
    ensures var e := Step(d, req, restart).d; Fits(e) && e.config == d.config
  {
    hide Poll, Serve, Fits;
    if req.Reset? {
      ServeKeepsFit(d, req, restart);
    } else {
      PollKeepsFit(d, restart);
      ServeKeepsFit(Poll(d, restart).0, req, restart);
    }
  }

  lemma {:induction false} RunKeepsFit(c: Config, inputs: seq<Input>)
    requires c.transferSize >= SUFFIX_LEN
    requires forall i :: i in inputs && i.Req? && i.req.Dnload? ==> |i.req.data| <= c.transferSize
    ensures Fits(Run(Fresh(c), inputs)) && Run(Fresh(c), inputs).config == c
    decreases |inputs|
  {
    hide Step, QueueCapacity;
    CapacityAtLeastTwo(c.transferSize);
    if inputs != [] {
      var front, i := inputs[..|inputs| - 1], inputs[|inputs| - 1];
      assert forall j :: j in front ==> j in inputs;
      RunKeepsFit(c, front);
      var d := Run(Fresh(c), front);
      match i
      case Env(m) => assert BlocksFit(Do(d.sink, m).queue, c.transferSize);
      case Req(req, restart) => StepKeepsFit(d, req, restart);
    }
  }

  lemma {:induction false} ConcatFits(blocks: seq<Bytes>, n: nat)
    requires BlocksFit(blocks, n)
    ensures |Concat(blocks)| <= |blocks| * n
  {
    if blocks != [] {
      ConcatFits(blocks[1..], n);
      assert |blocks| * n == n + |blocks[1..]| * n;
    }
  }

  lemma FullQueueBytes(ts: nat, n: nat)
    requires 0 < ts < 0x1_0000 && n <= QueueCapacity(ts)
    ensures n * ts < TARGET_QUEUE_BYTES + ts
  {
    hide QueueCapacity;
    QueueCapacityBounds(ts);
    var cap := QueueCapacity(ts);
    assert n * ts <= cap * ts;
    assert cap * ts == (cap - 1) * ts + ts;
  }

  /** A host that respects wTransferSize (16..65535) never makes the device buffer 2 MiB + 2 blocks + 16 bytes. */
  lemma MemoryBounded(c: Config, inputs: seq<Input>)
    requires 16 <= c.transferSize < 0x1_0000
    requires forall i :: i in inputs && i.Req? && i.req.Dnload? ==> |i.req.data| <= c.transferSize
    ensures var d := Run(Fresh(c), inputs);
            |Concat(d.sink.queue)| + |PendingBytes(d)| + |d.tail| < 2 * 1024 * 1024 + 2 * c.transferSize + 16
  {
    hide Run, QueueCapacity;
    RunKeepsFit(c, inputs);
    var d := Run(Fresh(c), inputs);
    ConcatFits(d.sink.queue, c.transferSize);
    FullQueueBytes(c.transferSize, |d.sink.queue|);
  }
}
