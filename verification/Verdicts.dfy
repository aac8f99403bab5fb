/**
 What the hosts are told.  Over every run of each of the three functions, the answer that ends a transfer is
 decided by the verdict the status task settled on, and by nothing else.
 */
module Verdicts {
  import opened ByteSeq
  import opened Swupdate
  import opened Dialog
  import Proto
  import Usb = FastbootUsb
  import UsbReach = FastbootUsbReach
  import Tcp = FastbootTcp
  import Dfu
  import DfuSafety

  // --- Calls on the session ------------------------------------------------------

  /** The ruling after a client call: a transfer that was opened by the call has none. */
  function Carry(r: Option<Verdict>, s: Session, t: Session): Option<Verdict> {
    if !s.IsOpen() && t.IsOpen() then None else r
  }

  /** A client call took the session from `s` to `t` without making up a verdict. */
  ghost predicate Passes(s: Session, t: Session) {
    && Inv(t)
    && (t.Opened() ==>
          if !s.IsOpen() && t.IsOpen() then PollStatus(t).1.None?
          else s.Opened() && PollStatus(t).1 == PollStatus(s).1)
  }

  lemma PassesOn(s: Session, t: Session, r: Option<Verdict>)
    requires Knows(s, r) && Passes(s, t)
    ensures Knows(t, Carry(r, s, t))
  {
    hide Inv;
  }

  lemma SendPasses(s: Session, block: Bytes, restart: bool)
    requires Inv(s)
    ensures var t := TrySend(s, block, restart).0; Passes(s, t) && (s.Opened() ==> t.Opened()) && (s.status ==> t.status)
    ensures s.Opened() ==> !TrySend(s, block, restart).1.FeedError? && PollStatus(TrySend(s, block, restart).0).1 == PollStatus(s).1
    ensures s.Opened() && TrySend(s, block, restart).0.IsOpen() ==> s.IsOpen()
  {
    hide QueueCapacity, StreamAccounted;
    SendKeepsInv(s, block, restart);
  }

  lemma OpenPasses(s: Session, restart: bool)
    requires Inv(s)
    ensures Passes(s, Open(s, restart).0)
  {
    hide QueueCapacity, StreamAccounted;
    OpenKeepsInv(s, restart);
  }

  lemma EofPasses(s: Session)
    requires Inv(s)
    ensures Passes(s, Eof(s)) && Eof(s).Opened() == s.Opened() && Eof(s).status == s.status
    ensures PollStatus(Eof(s)).1 == PollStatus(s).1
  {
    ApplyKeepsInv(s, OpEof);
  }

  lemma PollPasses(s: Session)
    requires Inv(s)
    ensures Passes(s, PollStatus(s).0) && PollStatus(s).0.Opened() == s.Opened()
    ensures s.Opened() ==> PollStatus(PollStatus(s).0).1 == PollStatus(s).1
  {
    hide StreamAccounted;
    ApplyKeepsInv(s, OpPoll);
  }

  lemma AbortPasses(s: Session)
    requires Inv(s)
    ensures Passes(s, Swupdate.Abort(s))
  {
    ApplyKeepsInv(s, OpAbort);
  }

  lemma NewPasses(s: Session, maxBlock: nat)
    ensures Passes(s, New(maxBlock))
  {
  }

  // --- Fastboot over USB ------------------------------------------------------------

  /** The ruling on the current transfer after a run, read off the background moves. */
  function UsbRuling(r: Option<Verdict>, u: Usb.Usb, inputs: seq<Usb.Input>): Option<Verdict>
    decreases |inputs|
  {
    if inputs == [] then r
    else
      var e := Usb.Take(u, inputs[0]);
      UsbRuling(if inputs[0].Env? then Ruled(r, u.sink, inputs[0].move) else Carry(r, u.sink, e.sink), e, inputs[1..])
  }

  /** The ruling is known, a failed download has given its session up, and a transfer being finished has one. */
  ghost predicate UsbKnows(u: Usb.Usb, r: Option<Verdict>) {
    && UsbReach.Steady(u) && Knows(u.sink, r)
    && (u.failReply.Some? ==> !u.sink.Opened())
    && (u.finishPending ==> u.sink.Opened())
  }

  lemma ChunkPasses(u: Usb.Usb, chunk: Bytes, restart: bool)
    requires Inv(u.sink) && (u.failReply.Some? ==> !u.sink.Opened())
    ensures var v := Usb.DownloadChunk(u, chunk, restart);
            && Passes(u.sink, v.sink) && (v.finishPending ==> u.finishPending)
            && (v.failReply.Some? ==> !v.sink.Opened())
            && (u.sink.status && u.failReply.None? ==> v.sink.status && v.failReply.None?)
            && (u.sink.Opened() ==> v.sink.Opened() && v.failReply.None? && PollStatus(v.sink).1 == PollStatus(u.sink).1)
            && (u.sink.Opened() && v.sink.IsOpen() ==> u.sink.IsOpen())
  {
    hide TrySend, Inv, PollStatus;
    SendPasses(u.sink, chunk, restart);
    AbortPasses(TrySend(u.sink, chunk, restart).0);
    NewPasses(u.sink, Usb.RECV_BUFFER_SIZE);
    StaysItself(u.sink);
  }

  lemma StaysItself(s: Session)
    requires Inv(s)
    ensures Passes(s, s) && (!s.Opened() ==> !s.IsOpen())
  {
  }

  lemma CommandPasses(u: Usb.Usb, c: Proto.Command, restart: bool, headerSent: bool)
    requires Inv(u.sink) && u.failReply.None? && !u.finishPending
    ensures var v := Usb.HandleCommand(u, c, restart, headerSent).0;
            && Passes(u.sink, v.sink) && v.failReply.None? && (v.finishPending ==> v.sink.Opened())
            && (v.Active() && !u.Active() ==> v.sink.Opened() && (!u.sink.IsOpen() ==> v.sink.status))
  {
    hide Open, Eof, PollStatus, Proto.DataHeader, StreamAccounted, QueueCapacity;
    OpenPasses(u.sink, restart);
    OpenGivesStatus(u.sink, restart);
    EofPasses(u.sink);
    NewPasses(u.sink, Usb.RECV_BUFFER_SIZE);
    StaysItself(u.sink);
  }

  lemma OpenGivesStatus(s: Session, restart: bool)
    ensures !s.IsOpen() && Open(s, restart).1 ==> Open(s, restart).0.status
  {
  }

  lemma CompletionPasses(u: Usb.Usb, chunk: Bytes, restart: bool, headerSent: bool)
    requires UsbReach.Steady(u) && (u.failReply.Some? ==> !u.sink.Opened()) && !u.finishPending
    ensures var v := Usb.RxChunk(u, chunk, restart, headerSent);
            && Passes(u.sink, v.sink)
            && (v.failReply.Some? ==> !v.sink.Opened()) && (v.finishPending ==> v.sink.Opened())
  {
    hide Usb.DownloadChunk, Usb.HandleCommand, Proto.ParseCommand, Inv, PollStatus;
    StaysItself(u.sink);
    if !u.Active() {
      var v := u.(commands := u.commands + [chunk]);
      var parsed := Proto.ParseCommand(chunk);
      if parsed.Some? {
        CommandPasses(v, parsed.value.0, restart, headerSent);
        var w := Usb.HandleCommand(v, parsed.value.0, restart, headerSent).0;
        if w.Active() && parsed.value.1 < |chunk| { ChunkPasses(w, chunk[parsed.value.1..], restart); }
      }
    } else if |chunk| <= u.Remaining() {
      ChunkPasses(u, chunk, restart);
    } else {
      var r := u.Remaining();
      ChunkPasses(u, chunk[..r], restart);
      ChunkPasses(Usb.DownloadChunk(u, chunk[..r], restart), chunk[r..], restart);
    }
  }

  /** The look before a read fails the download exactly when SWUpdate was ruled to have failed. */
  lemma CheckPasses(u: Usb.Usb)
    requires Inv(u.sink) && (u.failReply.Some? ==> !u.sink.Opened())
    ensures var v := Usb.CheckFailed(u);
            && Passes(u.sink, v.sink) && (v.failReply.Some? ==> !v.sink.Opened())
            && v.finishPending == u.finishPending && (u.finishPending ==> v == u)
            && (u.failReply.None? ==>
                  (v.failReply.Some? <==>
                     !u.finishPending && u.Active() && u.sink.IsOpen() && PollStatus(u.sink).1 == Some(Failure)))
  {
    hide PollStatus, StreamAccounted, QueueCapacity;
    StaysItself(u.sink);
    PollPasses(u.sink);
    AbortPasses(PollStatus(u.sink).0);
  }

  lemma UsbTakeKnows(u: Usb.Usb, r: Option<Verdict>, i: Usb.Input)
    requires UsbKnows(u, r) && Usb.Ready(u, i)
    ensures UsbKnows(Usb.Take(u, i), if i.Env? then Ruled(r, u.sink, i.move) else Carry(r, u.sink, Usb.Take(u, i).sink))
  {
    hide Usb.RxChunk, Usb.CheckFailed, Usb.MayFeed, Inv, Do, PollStatus, UsbReach.Steady;
    UsbReach.TakeSteady(u, i);
    NewPasses(u.sink, Usb.RECV_BUFFER_SIZE);
    SteadyInv(u);
    StaysItself(u.sink);
    match i
    case Env(m) => MoveRules(u.sink, r, m);
    case Check => CheckPasses(u); PassesOn(u.sink, Usb.Take(u, i).sink, r);
    case Recv(chunk, restart, headerSent) =>
      CompletionPasses(u, chunk, restart, headerSent);
      PassesOn(u.sink, Usb.Take(u, i).sink, r);
    case _ => PassesOn(u.sink, Usb.Take(u, i).sink, r);
  }

  lemma SteadyInv(u: Usb.Usb)
    requires UsbReach.Steady(u)
    ensures Inv(u.sink)
  {
  }

  lemma {:induction false} UsbRunKnows(u: Usb.Usb, r: Option<Verdict>, inputs: seq<Usb.Input>)
    requires UsbKnows(u, r) && Usb.CanRunUsb(u, inputs)
    ensures UsbKnows(Usb.RunUsb(u, inputs), UsbRuling(r, u, inputs))
    decreases |inputs|
  {
    hide Usb.Take, Usb.Ready, UsbKnows, Ruled, Carry;
    if inputs != [] {
      UsbTakeKnows(u, r, inputs[0]);
      var now := if inputs[0].Env? then Ruled(r, u.sink, inputs[0].move) else Carry(r, u.sink, Usb.Take(u, inputs[0]).sink);
      UsbRunKnows(Usb.Take(u, inputs[0]), now, inputs[1..]);
    }
  }

  /**
   USB, over every run.  The reply to `flash` or `Close` is sent once the status task has settled, it is OKAY if
   and only if it settled on success, and the look before a read fails a download if and only if it settled on
   failure.
   */
  lemma UsbTellsTheVerdict(info: Info, inputs: seq<Usb.Input>)
    requires Usb.CanRunUsb(Usb.Start(info), inputs)
    ensures var u := Usb.RunUsb(Usb.Start(info), inputs);
            var r := UsbRuling(None, Usb.Start(info), inputs);
            && (u.finishPending ==>
                  && (Usb.Ready(u, Usb.Finished) <==> r.Some?)
                  && (r == Some(Success) ==> Usb.Take(u, Usb.Finished).out == u.out + [Okay])
                  && (r == Some(Failure) ==> Usb.Take(u, Usb.Finished).out == u.out + [FailClose]))
            && (u.Active() && u.failReply.None? && u.sink.IsOpen() ==>
                  (Usb.Take(u, Usb.Check).failReply.Some? <==> r == Some(Failure)))
  {
    hide Usb.RunUsb, Usb.CanRunUsb, UsbRuling, Inv;
    NewInv(Usb.RECV_BUFFER_SIZE);
    UsbRunKnows(Usb.Start(info), None, inputs);
    CheckPasses(Usb.RunUsb(Usb.Start(info), inputs));
  }

  // --- Fastboot over TCP ------------------------------------------------------------

  function TcpRuling(r: Option<Verdict>, t: Tcp.Tcp, inputs: seq<Tcp.Input>): Option<Verdict>
    requires Tcp.CanRunTcp(t, inputs)
    decreases |inputs|
  {
    if inputs == [] then r
    else
      var e := Tcp.Take(t, inputs[0]);
      TcpRuling(if inputs[0].Env? then Ruled(r, t.sink, inputs[0].move) else Carry(r, t.sink, e.sink), e, inputs[1..])
  }

  /** The ruling is known, a data phase or a finish has a transfer, and a closed connection has none. */
  ghost predicate TcpKnows(t: Tcp.Tcp, r: Option<Verdict>) {
    Knows(t.sink, r) && (if t.pc.Dropped? then !t.sink.Opened() else t.pc.Commands? || t.sink.Opened())
  }

  lemma FramePasses(t: Tcp.Tcp, cmd: Bytes, restart: bool)
    requires Inv(t.sink) && t.pc.Commands?
    ensures var v := Tcp.Frame(t, cmd, restart); Passes(t.sink, v.sink) && !v.pc.Dropped? && (v.pc.Commands? || v.sink.Opened())
  {
    hide Open, Eof, PollStatus, Proto.DataHeader, Proto.ParseCommand, StreamAccounted, QueueCapacity;
    OpenPasses(t.sink, restart);
    EofPasses(t.sink);
    StaysItself(t.sink);
  }

  /** A block read in the data phase ends the connection exactly when SWUpdate was ruled to have failed. */
  lemma BlockPasses(t: Tcp.Tcp, block: Bytes)
    requires Inv(t.sink) && t.pc.Streaming? && |block| <= t.pc.remaining && t.sink.Opened()
    ensures var v := Tcp.Block(t, block);
            && Passes(t.sink, v.sink) && (if v.pc.Dropped? then !v.sink.Opened() else v.pc.Commands? || v.sink.Opened())
            && (t.pc.forwarding && t.sink.IsOpen() ==> (v.pc.Dropped? <==> PollStatus(t.sink).1 == Some(Failure)))
            && (v.pc.Dropped? ==> v.out == t.out + [FailEpipe])
  {
    hide PollStatus, StreamAccounted, QueueCapacity;
    StaysItself(t.sink);
    PollPasses(t.sink);
    AbortPasses(PollStatus(t.sink).0);
  }

  lemma FeedPasses(t: Tcp.Tcp, restart: bool)
    requires Inv(t.sink) && t.pc.Feeding? && t.sink.Opened()
    ensures var v := Tcp.FeedBlock(t, restart); Passes(t.sink, v.sink) && v.sink.Opened() && !v.pc.Dropped?
  {
    hide TrySend, PollStatus, StreamAccounted, QueueCapacity;
    StaysItself(t.sink);
    SendPasses(t.sink, t.pc.block, restart);
  }

  lemma SettledPasses(t: Tcp.Tcp)
    requires Inv(t.sink) && t.sink.Opened()
    ensures var v := Tcp.Settled(t);
            && Passes(t.sink, v.sink) && (if v.pc.Dropped? then !v.sink.Opened() || t.pc.Dropped? else v.pc.Commands? || v.sink.Opened())
  {
    hide PollStatus, StreamAccounted, QueueCapacity;
    StaysItself(t.sink);
    PollPasses(t.sink);
    AbortPasses(PollStatus(t.sink).0);
    NewPasses(t.sink, Tcp.RECV_BUFFER_SIZE);
  }

  lemma TcpTakeKnows(t: Tcp.Tcp, r: Option<Verdict>, i: Tcp.Input)
    requires TcpKnows(t, r) && Tcp.Ready(t, i)
    ensures TcpKnows(Tcp.Take(t, i), if i.Env? then Ruled(r, t.sink, i.move) else Carry(r, t.sink, Tcp.Take(t, i).sink))
  {
    hide Tcp.Frame, Tcp.Block, Tcp.FeedBlock, Tcp.Settled, Inv, Do, PollStatus;
    match i
    case Env(m) => MoveRules(t.sink, r, m);
    case Command(cmd, restart) => FramePasses(t, cmd, restart); PassesOn(t.sink, Tcp.Take(t, i).sink, r);
    case Data(block) => BlockPasses(t, block); PassesOn(t.sink, Tcp.Take(t, i).sink, r);
    case Feed(restart) => FeedPasses(t, restart); PassesOn(t.sink, Tcp.Take(t, i).sink, r);
    case Finished => SettledPasses(t); PassesOn(t.sink, Tcp.Take(t, i).sink, r);
    case Lost => AbortPasses(t.sink); PassesOn(t.sink, Tcp.Take(t, i).sink, r);
  }

  lemma {:induction false} TcpRunKnows(t: Tcp.Tcp, r: Option<Verdict>, inputs: seq<Tcp.Input>)
    requires TcpKnows(t, r) && Tcp.CanRunTcp(t, inputs)
    ensures TcpKnows(Tcp.RunTcp(t, inputs), TcpRuling(r, t, inputs))
    decreases |inputs|
  {
    hide Tcp.Take, Tcp.Ready, TcpKnows, Ruled, Carry;
    if inputs != [] {
      TcpTakeKnows(t, r, inputs[0]);
      var now := if inputs[0].Env? then Ruled(r, t.sink, inputs[0].move) else Carry(r, t.sink, Tcp.Take(t, inputs[0]).sink);
      TcpRunKnows(Tcp.Take(t, inputs[0]), now, inputs[1..]);
    }
  }

  /**
   TCP, over every run.  The reply to `flash` or `Close` is sent once the status task has settled and is OKAY if
   and only if it settled on success; a block in the data phase ends the connection, with a FAIL, if and only if
   it settled on failure.  A connection that is closed has no transfer left.
   */
  lemma TcpTellsTheVerdict(info: Info, inputs: seq<Tcp.Input>)
    requires Tcp.CanRunTcp(Tcp.Start(info), inputs)
    ensures var t := Tcp.RunTcp(Tcp.Start(info), inputs);
            var r := TcpRuling(None, Tcp.Start(info), inputs);
            && (t.pc.Finishing? ==>
                  && (Tcp.Ready(t, Tcp.Finished) <==> r.Some?)
                  && (r == Some(Success) ==> Tcp.Take(t, Tcp.Finished).out == t.out + [Okay])
                  && (r == Some(Failure) ==> Tcp.Take(t, Tcp.Finished).out == t.out + [FailClose]))
            && (t.pc.Streaming? && t.pc.forwarding && t.sink.IsOpen() ==>
                  forall block: Bytes | Tcp.Ready(t, Tcp.Input.Data(block)) ::
                    var v := Tcp.Block(t, block);
                    && (v.pc.Dropped? <==> r == Some(Failure))
                    && (v.pc.Dropped? ==> v.out == t.out + [FailEpipe]))
            && (t.pc.Dropped? ==> !t.sink.Opened())
  {
    hide Tcp.RunTcp, Tcp.CanRunTcp, TcpRuling, Inv, Tcp.Block;
    NewInv(Tcp.RECV_BUFFER_SIZE);
    TcpRunKnows(Tcp.Start(info), None, inputs);
    var t := Tcp.RunTcp(Tcp.Start(info), inputs);
    if t.pc.Streaming? && t.pc.forwarding && t.sink.IsOpen() {
      forall block: Bytes | Tcp.Ready(t, Tcp.Input.Data(block))
        ensures var v := Tcp.Block(t, block);
                && (v.pc.Dropped? <==> TcpRuling(None, Tcp.Start(info), inputs) == Some(Failure))
                && (v.pc.Dropped? ==> v.out == t.out + [FailEpipe])
      { BlockPasses(t, block); }
    }
  }

  /** After any run, a lost connection is silent for good and its transfer is torn down. */
  lemma LostConnectionEnds(info: Info, before: seq<Tcp.Input>, after: seq<Tcp.Input>)
    requires Tcp.CanRunTcp(Tcp.Start(info), before) && !Tcp.RunTcp(Tcp.Start(info), before).pc.Dropped?
    requires Tcp.CanRunTcp(Tcp.Take(Tcp.RunTcp(Tcp.Start(info), before), Tcp.Lost), after)
    ensures var t := Tcp.RunTcp(Tcp.Start(info), before);
            var e := Tcp.RunTcp(Tcp.Take(t, Tcp.Lost), after);
            e.pc.Dropped? && e.out == t.out && !e.sink.Opened()
  {
    hide Tcp.RunTcp, Tcp.CanRunTcp, Inv;
    var t := Tcp.RunTcp(Tcp.Start(info), before);
    NewInv(Tcp.RECV_BUFFER_SIZE);
    TcpRunKnows(Tcp.Start(info), None, before);
    AbortPasses(t.sink);
    DroppedStays(Tcp.Take(t, Tcp.Lost), after);
  }

  lemma {:induction false} DroppedStays(t: Tcp.Tcp, inputs: seq<Tcp.Input>)
    requires t.pc.Dropped? && Inv(t.sink) && !t.sink.Opened() && Tcp.CanRunTcp(t, inputs)
    ensures var e := Tcp.RunTcp(t, inputs); e.pc.Dropped? && e.out == t.out && !e.sink.Opened()
    decreases |inputs|
  {
    hide Inv;
    if inputs != [] {
      MoveKeepsInv(t.sink, inputs[0].move);
      DroppedStays(Tcp.Take(t, inputs[0]), inputs[1..]);
    }
  }

  // --- DFU ------------------------------------------------------------------------------

  function DfuRuling(c: Dfu.Config, inputs: seq<Dfu.Input>): Option<Verdict>
    decreases |inputs|
  {
    if inputs == [] then None
    else
      var front, i := inputs[..|inputs| - 1], inputs[|inputs| - 1];
      DfuRuled(DfuRuling(c, front), Dfu.Run(Dfu.Fresh(c), front), i)
  }

  /** The ruling after one input; a data stage is awaited between the poll and the block. */
  function DfuRuled(r: Option<Verdict>, d: Dfu.Handler, i: Dfu.Input): Option<Verdict> {
    match i
    case Env(m) => Ruled(r, d.sink, m)
    case Req(req, restart) =>
      var e := Dfu.Step(d, req, restart).d;
      if req.Reset? then r
      else
        var p := Dfu.Poll(d, restart).0;
        var polled := Carry(r, d.sink, p.sink);
        if req.Dnload? && !Dfu.Poll(d, restart).1.Refused? && !Dfu.IsFinishing(p.state) then
          Carry(RuledAll(polled, p.sink, req.meanwhile), DoAll(p.sink, req.meanwhile), e.sink)
        else Carry(polled, p.sink, e.sink)
  }

  lemma PushPasses(d: Dfu.Handler, restart: bool)
    requires Inv(d.sink)
    ensures var e := Dfu.PushPending(d, restart).0;
            && Passes(d.sink, e.sink) && (d.sink.Opened() ==> e.sink.Opened()) && (d.sink.status ==> e.sink.status)
            && (d.sink.Opened() ==> PollStatus(e.sink).1 == PollStatus(d.sink).1)
            && (!d.sink.Opened() && e.sink.Opened() ==> e.sink.status)
  {
    hide TrySend, PollStatus, StreamAccounted, QueueCapacity, Eof;
    StaysItself(d.sink);
    EofPasses(d.sink);
    if d.pending.Some? {
      SendPasses(d.sink, d.pending.value, restart);
      if !d.sink.Opened() { OpensWithStatus(d.sink, d.pending.value, restart); }
      EofPasses(TrySend(d.sink, d.pending.value, restart).0);
    }
  }

  lemma OpensWithStatus(s: Session, block: Bytes, restart: bool)
    requires !s.Opened() && Inv(s)
    ensures TrySend(s, block, restart).0.Opened() ==> TrySend(s, block, restart).0.status
  {
  }

  lemma DfuPollPasses(d: Dfu.Handler, restart: bool)
    requires Inv(d.sink)
    ensures Passes(d.sink, Dfu.Poll(d, restart).0.sink)
  {
    hide Dfu.PushPending, PollStatus, StreamAccounted, QueueCapacity;
    PushPasses(d, restart);
    var e := Dfu.PushPending(d, restart).0;
    PollPasses(e.sink);
    PollKeepsStatus(e.sink);
    NewPasses(d.sink, e.config.transferSize);
  }

  lemma PollKeepsStatus(s: Session)
    requires Inv(s)
    ensures s.status && PollStatus(s).1.None? ==> PollStatus(s).0.status
  {
  }

  lemma ServePasses(d: Dfu.Handler, req: Dfu.Request, restart: bool)
    requires Inv(d.sink)
    ensures var from := if req.Dnload? && !Dfu.IsFinishing(d.state) then DoAll(d.sink, req.meanwhile) else d.sink;
            Inv(from) && Passes(from, Dfu.Serve(d, req, restart).d.sink)
  {
    hide Dfu.PushPending, DoAll, PollStatus, StreamAccounted, QueueCapacity, Dfu.HasValidSuffix, Dfu.StatusReply;
    StaysItself(d.sink);
    NewPasses(d.sink, d.config.transferSize);
    match req
    case Dnload(data, ms) =>
      MovesKeepInv(d.sink, ms);
      StaysItself(DoAll(d.sink, ms));
      NewPasses(DoAll(d.sink, ms), d.config.transferSize);
      TakePasses(Dfu.During(d, ms), data, restart);
    case DnloadEmpty => StartPasses(d, restart);
    case _ =>
  }

  lemma SubmitPasses(d: Dfu.Handler, chunk: Bytes, restart: bool)
    requires Inv(d.sink)
    ensures Passes(d.sink, Dfu.SubmitChunk(d, chunk, restart).0.sink)
  {
    hide Dfu.PushPending, PollStatus, StreamAccounted, QueueCapacity;
    NewPasses(d.sink, d.config.transferSize);
    PushPasses(d.(pending := Some(chunk)), restart);
  }

  lemma TakePasses(d: Dfu.Handler, data: Bytes, restart: bool)
    requires Inv(d.sink)
    ensures Passes(d.sink, Dfu.TakeBlock(d, data, restart).0.sink)
  {
    hide Dfu.SubmitChunk, Passes;
    StaysItself(d.sink);
    var buf := d.tail + data;
    if |buf| > Dfu.SUFFIX_LEN {
      var flush := |buf| - Dfu.SUFFIX_LEN;
      SubmitPasses(d.(state := Dfu.DnloadSync, status := Dfu.Ok, tail := buf[flush..],
                      crc := Dfu.Crc32.Update(d.crc, buf[..flush])), buf[..flush], restart);
    }
  }

  lemma StartPasses(d: Dfu.Handler, restart: bool)
    requires Inv(d.sink)
    ensures Passes(d.sink, Dfu.StartManifest(d, restart).0.sink)
  {
    hide Dfu.SubmitChunk, Dfu.PushPending, Dfu.HasValidSuffix, Passes;
    var e := d.(state := Dfu.Manifest, status := Dfu.Ok, tail := []);
    PushPasses(e, restart);
    SubmitPasses(e, d.tail, restart);
  }

  lemma DfuTakeKnows(d: Dfu.Handler, r: Option<Verdict>, i: Dfu.Input)
    requires Knows(d.sink, r)
    ensures Knows(Dfu.Take(d, i).d.sink, DfuRuled(r, d, i))
  {
    hide Dfu.Poll, Dfu.Serve, Inv, Do, DoAll, RuledAll, PollStatus;
    match i
    case Env(m) => MoveRules(d.sink, r, m);
    case Req(req, restart) =>
      if req.Reset? {
        ResetForgets(d, restart);
      } else {
        DfuPollPasses(d, restart);
        var (p, note) := Dfu.Poll(d, restart);
        PassesOn(d.sink, p.sink, r);
        var polled := Carry(r, d.sink, p.sink);
        if note.Refused? {
          StaysItself(p.sink);
          PassesOn(p.sink, p.sink, polled);
        } else {
          ServePasses(p, req, restart);
          if req.Dnload? && !Dfu.IsFinishing(p.state) {
            MovesRule(p.sink, polled, req.meanwhile);
            PassesOn(DoAll(p.sink, req.meanwhile), Dfu.Serve(p, req, restart).d.sink, RuledAll(polled, p.sink, req.meanwhile));
          } else {
            PassesOn(p.sink, Dfu.Serve(p, req, restart).d.sink, polled);
          }
        }
      }
  }

  lemma ResetForgets(d: Dfu.Handler, restart: bool)
    ensures var s := Dfu.Serve(d, Dfu.Reset, restart).d.sink; Inv(s) && !s.Opened()
  {
  }

  lemma {:induction false} DfuRunKnows(c: Dfu.Config, inputs: seq<Dfu.Input>)
    ensures Knows(Dfu.Run(Dfu.Fresh(c), inputs).sink, DfuRuling(c, inputs))
    decreases |inputs|
  {
    hide Dfu.Take, DfuRuled, Knows;
    if inputs == [] {
      NewKnows(c.transferSize);
    } else {
      DfuRunKnows(c, inputs[..|inputs| - 1]);
      DfuTakeKnows(Dfu.Run(Dfu.Fresh(c), inputs[..|inputs| - 1]), DfuRuling(c, inputs[..|inputs| - 1]), inputs[|inputs| - 1]);
    }
  }

  lemma NewKnows(maxBlock: nat)
    ensures Knows(New(maxBlock), None)
  {
  }

  /**
   DFU, over every run.  A handler in Manifest reports success if and only if the status task of its transfer
   settled on success; it reports a failed verification if and only if the task settled on failure or there is no
   transfer at all; otherwise it goes on waiting.
   */
  lemma DfuTellsTheVerdict(c: Dfu.Config, inputs: seq<Dfu.Input>, restart: bool)
    ensures var d := Dfu.Run(Dfu.Fresh(c), inputs);
            var r := DfuRuling(c, inputs);
            var (p, note) := Dfu.Poll(d, restart);
            d.state.Manifest? ==>
              && (p.state.ManifestSync? <==> d.sink.Opened() && r == Some(Success))
              && (p.state.ManifestSync? ==> p.status.Ok? && note.Fine?)
              && (note.SwFailed? <==> !d.sink.Opened() || r == Some(Failure))
              && (note.SwFailed? <==> p.state.Error?)
              && (note.SwFailed? ==> p.status.ErrVerify?)
              && (p.state.Manifest? <==> d.sink.Opened() && r.None?)
  {
    hide Dfu.Run, DfuRuling, Dfu.PushPending, StreamAccounted, QueueCapacity;
    DfuRunKnows(c, inputs);
    DfuSafety.RunKeepsHeld(c, inputs);
    var d := Dfu.Run(Dfu.Fresh(c), inputs);
    if d.state.Manifest? {
      PushPasses(d, restart);
      PushInManifest(d, restart);
      var r := DfuRuling(c, inputs);
      if r.Some? { assert r.value.Success? || r.value.Failure?; }
    }
  }

  lemma PushInManifest(d: Dfu.Handler, restart: bool)
    requires Inv(d.sink) && d.state.Manifest? && DfuSafety.Held(d)
    ensures var (e, ok) := Dfu.PushPending(d, restart); ok && e.state.Manifest? && e.sink.Opened() == d.sink.Opened()
  {
    hide QueueCapacity;
  }
}
