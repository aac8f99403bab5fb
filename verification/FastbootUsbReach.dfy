/** What holds of the USB function in every state it can reach, and the framing results from power-up. */
module FastbootUsbReach {
  import opened ByteSeq
  import opened Proto
  import opened Swupdate
  import opened Dialog
  import opened FastbootUsb
  import opened FastbootUsbFraming
  import FastbootUsbDevice

  /** The flags agree, the session accounts for its bytes, and a download that has not failed has a transfer. */
  ghost predicate Steady(u: Usb) {
    && FlagsAgree(u) && Inv(u.sink)
    && (u.Active() && u.failReply.None? ==> u.sink.Opened())
  }

  lemma ChunkSteady(u: Usb, chunk: Bytes, restart: bool)
    requires Steady(u) && !u.finishPending
    ensures Steady(DownloadChunk(u, chunk, restart)) && !DownloadChunk(u, chunk, restart).finishPending
  {
    hide TrySend, Said, QueueCapacity;
    ChunkKeepsFlags(u, chunk, restart);
    SendKeepsInv(u.sink, chunk, restart);
    if u.sink.Opened() { SendKeepsOpened(u.sink, chunk, restart); }
    ApplyKeepsInv(TrySend(u.sink, chunk, restart).0, OpAbort);
    NewInv(RECV_BUFFER_SIZE);
  }

  lemma SendKeepsOpened(s: Session, block: Bytes, restart: bool)
    requires Inv(s) && s.Opened()
    ensures TrySend(s, block, restart).0.Opened() && !TrySend(s, block, restart).1.FeedError?
  {
  }

  lemma CommandSteady(u: Usb, c: Command, restart: bool, headerSent: bool)
    requires Steady(u) && !u.finishPending && !u.Active()
    ensures var v := HandleCommand(u, c, restart, headerSent).0; Steady(v) && (v.Active() ==> !v.finishPending)
  {
    hide HandleCommand, Said, Inv;
    CommandKeepsFlags(u, c, restart, headerSent);
    FastbootUsbDevice.CommandKeepsInv(u, c, restart, headerSent);
    CommandOpens(u, c, restart, headerSent);
    var v := HandleCommand(u, c, restart, headerSent).0;
    if v.Active() { OpenedWhenOpen(v.sink); }
  }

  lemma CommandOpens(u: Usb, c: Command, restart: bool, headerSent: bool)
    requires !u.Active()
    ensures var v := HandleCommand(u, c, restart, headerSent).0; v.Active() ==> v.sink.IsOpen()
  {
    hide DataHeader, Open;
  }

  lemma RxSteady(u: Usb, chunk: Bytes, restart: bool, headerSent: bool)
    requires Steady(u) && !u.finishPending
    ensures Steady(RxChunk(u, chunk, restart, headerSent))
  {
    hide DownloadChunk, HandleCommand, ParseCommand, Inv;
    if !u.Active() {
      var v := u.(commands := u.commands + [chunk]);
      if ParseCommand(chunk).Some? {
        var (c, n) := ParseCommand(chunk).value;
        ParseConsumes(chunk);
        CommandSteady(v, c, restart, headerSent);
        var w := HandleCommand(v, c, restart, headerSent).0;
        if w.Active() { ChunkSteady(w, chunk[n..], restart); }
      }
    } else if |chunk| <= u.Remaining() {
      ChunkSteady(u, chunk, restart);
    } else {
      var r := u.Remaining();
      ChunkSteady(u, chunk[..r], restart);
      ChunkSteady(DownloadChunk(u, chunk[..r], restart), chunk[r..], restart);
    }
  }

  lemma CheckSteady(u: Usb)
    requires Steady(u)
    ensures Steady(CheckFailed(u))
  {
    hide Inv;
    ApplyKeepsInv(u.sink, OpPoll);
    ApplyKeepsInv(PollStatus(u.sink).0, OpAbort);
  }

  lemma TakeSteady(u: Usb, i: Input)
    requires Steady(u) && Ready(u, i)
    ensures Steady(Take(u, i))
  {
    hide RxChunk, CheckFailed, MayFeed, Inv, Do;
    NewInv(RECV_BUFFER_SIZE);
    match i
    case Env(m) => MoveKeepsInv(u.sink, m);
    case Check => CheckSteady(u);
    case Recv(chunk, restart, headerSent) => RxSteady(u, chunk, restart, headerSent);
    case _ =>
  }

  lemma {:induction false} RunSteady(u: Usb, inputs: seq<Input>)
    requires Steady(u) && CanRunUsb(u, inputs)
    ensures Steady(RunUsb(u, inputs))
    decreases |inputs|
  {
    hide Steady, Take, Ready;
    if inputs != [] {
      TakeSteady(u, inputs[0]);
      RunSteady(Take(u, inputs[0]), inputs[1..]);
    }
  }

  /** Every state a run from power-up can reach, through failures, stalls and resets. */
  lemma AlwaysSteady(info: Info, inputs: seq<Input>)
    requires CanRunUsb(Start(info), inputs)
    ensures Steady(RunUsb(Start(info), inputs))
  {
    hide CanRunUsb, RunUsb;
    NewInv(RECV_BUFFER_SIZE);
    RunSteady(Start(info), inputs);
  }

  /** A download in progress is one the boundary results speak of. */
  lemma DownloadsAreFramed(info: Info, inputs: seq<Input>)
    requires CanRunUsb(Start(info), inputs)
    ensures RunUsb(Start(info), inputs).Active() ==> InDownload(RunUsb(Start(info), inputs))
  {
    hide CanRunUsb, RunUsb;
    AlwaysSteady(info, inputs);
  }

  /**
   Framing from power-up.  After any run at all, a download command that is not refused is followed by exactly
   one OKAY or FAIL, sent when the announced bytes have arrived and not before; none of them is taken for a
   command, and an OKAY means that all of them were handed to SWUpdate.
   */
  lemma FramingFromPowerUp(info: Info, before: seq<Input>, chunk: Bytes, restart: bool, inputs: seq<Input>)
    requires CanRunUsb(Start(info), before)
    requires var u := RunUsb(Start(info), before);
             && !u.Active() && Ready(u, Input.Recv(chunk, restart, true)) && IsDownload(chunk)
             && (u.sink.IsOpen() || !restart)
             && DataPhase(RxChunk(u, chunk, restart, true), inputs)
    ensures var u := RunUsb(Start(info), before);
            var e := RunUsb(RxChunk(u, chunk, restart, true), inputs);
            var len, data := ParseCommand(chunk).value.0.len, Inlined(chunk) + Received(inputs);
            var header := u.out + [Raw(DataHeader(len))];
            && e.commands == u.commands + [chunk]
            && (|data| < len ==> e.out == header && e.Active())
            && (|data| >= len ==> (e.out == header + [Okay] || e.out == header + [FailEpipe]) && !e.Active())
            && (e.out == header + [Okay] ==> e.sink.Handed() == StreamBefore(u) + data)
            && (e.out == header + [FailEpipe] ==> e.sink.Handed() == [])
  {
    hide CanRunUsb, RunUsb, DataPhase, RxChunk, Ready, ParseCommand, DataHeader;
    AlwaysSteady(info, before);
    DownloadEndsOnce(RunUsb(Start(info), before), chunk, restart, inputs);
  }
}
