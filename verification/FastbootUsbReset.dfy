/** What a stall, a broken read or a lost connection leaves behind on USB: one reply at most, and a fresh function. */
module FastbootUsbReset {
  import opened ByteSeq
  import opened Proto
  import opened Swupdate
  import opened Dialog
  import opened FastbootUsb

  /** `u` with a past: replies already sent and chunks already parsed. */
  function Past(u: Usb, out: seq<Reply>, commands: seq<Bytes>): Usb {
    u.(out := out + u.out, commands := commands + u.commands)
  }

  lemma SayPast(u: Usb, out: seq<Reply>, commands: seq<Bytes>, r: Reply)
    ensures Say(Past(u, out, commands), r) == Past(Say(u, r), out, commands)
  {
    assert out + u.out + [r] == out + (u.out + [r]);
  }

  lemma ChunkPast(u: Usb, out: seq<Reply>, commands: seq<Bytes>, chunk: Bytes, restart: bool)
    ensures DownloadChunk(Past(u, out, commands), chunk, restart) == Past(DownloadChunk(u, chunk, restart), out, commands)
  {
    hide DownloadChunk;
    if u.failReply.Some? { DrainPast(u, out, commands, chunk, restart); } else { FeedPast(u, out, commands, chunk, restart); }
  }

  lemma DrainPast(u: Usb, out: seq<Reply>, commands: seq<Bytes>, chunk: Bytes, restart: bool)
    requires u.failReply.Some?
    ensures DownloadChunk(Past(u, out, commands), chunk, restart) == Past(DownloadChunk(u, chunk, restart), out, commands)
  {
    hide TrySend, Say;
    var d := u.(done := u.done + |chunk|);
    SayPast(d, out, commands, u.failReply.value);
    ResetPast(d, out, commands);
  }

  lemma FeedPast(u: Usb, out: seq<Reply>, commands: seq<Bytes>, chunk: Bytes, restart: bool)
    requires u.failReply.None?
    ensures DownloadChunk(Past(u, out, commands), chunk, restart) == Past(DownloadChunk(u, chunk, restart), out, commands)
  {
    hide TrySend, Say, ResetState;
    var d := u.(sink := TrySend(u.sink, chunk, restart).0, done := u.done + |chunk|);
    var f := FailDownload(d, FailEpipe);
    SayPast(f, out, commands, FailEpipe);
    SayPast(d, out, commands, Okay);
    ResetPast(f, out, commands);
  }

  lemma ResetPast(u: Usb, out: seq<Reply>, commands: seq<Bytes>)
    ensures forall r: Reply :: ResetState(Past(Say(u, r), out, commands)) == Past(ResetState(Say(u, r)), out, commands)
  {
  }

  lemma BeginPast(u: Usb, out: seq<Reply>, commands: seq<Bytes>, restart: bool)
    ensures Begin(Past(u, out, commands), restart) == (Past(Begin(u, restart).0, out, commands), Begin(u, restart).1)
  {
    SayPast(u.(sink := Open(u.sink, restart).0), out, commands, FailOpen);
  }

  lemma FinishPast(u: Usb, out: seq<Reply>, commands: seq<Bytes>)
    ensures StartFinish(Past(u, out, commands)) == (Past(StartFinish(u).0, out, commands), StartFinish(u).1)
    ensures FinishFlash(Past(u, out, commands)) == (Past(FinishFlash(u).0, out, commands), FinishFlash(u).1)
  {
    SayPast(u, out, commands, FailClose);
    SayPast(u, out, commands, FailFlash);
    SayPast(u, out, commands, FailBadSize);
    SayPast(u, out, commands, InfoWait);
    SayPast(Say(u, InfoWait), out, commands, FailClose);
  }

  lemma DownloadPast(u: Usb, out: seq<Reply>, commands: seq<Bytes>, len: nat, kind: DownloadKind, restart: bool, headerSent: bool)
    ensures var (v, ok) := StartDownload(u, len, kind, restart, headerSent);
            StartDownload(Past(u, out, commands), len, kind, restart, headerSent) == (Past(v, out, commands), ok)
  {
    hide Begin, DataHeader;
    BeginPast(u, out, commands, restart);
    var b := if u.sink.IsOpen() then u else Begin(u, restart).0;
    SayPast(b, out, commands, Raw(DataHeader(len)));
    var c := Say(b, Raw(DataHeader(len))).(size := len, done := 0, pendingFlash := kind.Fastboot? || !b.sessionOpen);
    SayPast(c, out, commands, Okay);
  }

  lemma CommandPast(u: Usb, out: seq<Reply>, commands: seq<Bytes>, c: Command, restart: bool, headerSent: bool)
    ensures var (v, ok) := HandleCommand(u, c, restart, headerSent);
            HandleCommand(Past(u, out, commands), c, restart, headerSent) == (Past(v, out, commands), ok)
  {
    hide Begin, StartFinish, FinishFlash, StartDownload, DataHeader;
    match c
    case WOpen =>
      BeginPast(u, out, commands, restart);
      SayPast(Begin(u, restart).0.(sessionOpen := true, pendingFlash := false), out, commands, Okay);
    case GetVar(arg) =>
      if arg in u.info.vars { SayPast(u, out, commands, Raw(u.info.vars[arg])); }
      SayPast(u, out, commands, FailCmd);
    case Fetch(_) =>
      var h, s := Raw(DataHeader(|u.info.sysinfo|)), Raw(u.info.sysinfo);
      SayPast(u, out, commands, h);
      SayPast(Say(u, h), out, commands, s);
      SayPast(Say(Say(u, h), s), out, commands, Okay);
    case FetchUnknownPart => SayPast(u, out, commands, FailUnknownPart);
    case Download(len, kind) => DownloadPast(u, out, commands, len, kind, restart, headerSent);
    case Flash => FinishPast(u, out, commands);
    case Close => FinishPast(u, out, commands);
    case Unsupported => SayPast(u, out, commands, FailCmd);
  }

  lemma CompletionPast(u: Usb, out: seq<Reply>, commands: seq<Bytes>, chunk: Bytes, restart: bool, headerSent: bool)
    ensures RxChunk(Past(u, out, commands), chunk, restart, headerSent) == Past(RxChunk(u, chunk, restart, headerSent), out, commands)
  {
    hide DownloadChunk, HandleCommand, ParseCommand;
    if !u.Active() {
      var v := u.(commands := u.commands + [chunk]);
      assert commands + u.commands + [chunk] == commands + (u.commands + [chunk]);
      if ParseCommand(chunk).Some? {
        var (c, n) := ParseCommand(chunk).value;
        CommandPast(v, out, commands, c, restart, headerSent);
        var w := HandleCommand(v, c, restart, headerSent).0;
        if n < |chunk| { ChunkPast(w, out, commands, chunk[n..], restart); }
      }
    } else if |chunk| <= u.Remaining() {
      ChunkPast(u, out, commands, chunk, restart);
    } else {
      var r := u.Remaining();
      ChunkPast(u, out, commands, chunk[..r], restart);
      ChunkPast(DownloadChunk(u, chunk[..r], restart), out, commands, chunk[r..], restart);
    }
  }

  lemma TakePast(u: Usb, out: seq<Reply>, commands: seq<Bytes>, i: Input)
    ensures Take(Past(u, out, commands), i) == Past(Take(u, i), out, commands)
    ensures Ready(Past(u, out, commands), i) == Ready(u, i)
  {
    hide RxChunk, PollStatus, Do, MayFeed;
    match i
    case Recv(chunk, restart, headerSent) =>
      CompletionPast(u, out, commands, chunk, restart, headerSent);
      FeedsPast(u, out, commands, chunk);
    case Finished =>
      SayPast(ResetState(u), out, commands, Okay);
      SayPast(ResetState(u), out, commands, FailClose);
    case Stalled => SayPast(ResetState(u), out, commands, FailBadSize);
    case Broken => SayPast(ResetState(u), out, commands, FailBadSize);
    case _ =>
  }

  lemma FeedsPast(u: Usb, out: seq<Reply>, commands: seq<Bytes>, chunk: Bytes)
    ensures MayFeed(Past(u, out, commands), chunk) == MayFeed(u, chunk)
  {
    hide ParseCommand;
  }

  /** The past changes nothing about what follows. */
  lemma {:induction false} RunPast(u: Usb, out: seq<Reply>, commands: seq<Bytes>, inputs: seq<Input>)
    ensures RunUsb(Past(u, out, commands), inputs) == Past(RunUsb(u, inputs), out, commands)
    ensures CanRunUsb(Past(u, out, commands), inputs) == CanRunUsb(u, inputs)
    decreases |inputs|
  {
    hide Take, Ready, Past;
    if inputs != [] {
      TakePast(u, out, commands, inputs[0]);
      RunPast(Take(u, inputs[0]), out, commands, inputs[1..]);
    }
  }

  lemma {:induction false} InfoStays(u: Usb, inputs: seq<Input>)
    ensures RunUsb(u, inputs).info == u.info
    decreases |inputs|
  {
    hide Take;
    if inputs != [] {
      TakeKeepsInfo(u, inputs[0]);
      InfoStays(Take(u, inputs[0]), inputs[1..]);
    }
  }

  lemma TakeKeepsInfo(u: Usb, i: Input)
    ensures Take(u, i).info == u.info
  {
    hide RxChunk, PollStatus;
    if i.Recv? { CompletionKeepsInfo(u, i.chunk, i.restart, i.headerSent); }
  }

  lemma CompletionKeepsInfo(u: Usb, chunk: Bytes, restart: bool, headerSent: bool)
    ensures RxChunk(u, chunk, restart, headerSent).info == u.info
  {
    hide DownloadChunk, HandleCommand, ParseCommand;
    if !u.Active() {
      var v := u.(commands := u.commands + [chunk]);
      if ParseCommand(chunk).Some? {
        var (c, n) := ParseCommand(chunk).value;
        CommandKeepsInfo(v, c, restart, headerSent);
        if n < |chunk| { ChunkKeepsInfo(HandleCommand(v, c, restart, headerSent).0, chunk[n..], restart); }
      }
    } else if |chunk| <= u.Remaining() {
      ChunkKeepsInfo(u, chunk, restart);
    } else {
      var r := u.Remaining();
      ChunkKeepsInfo(u, chunk[..r], restart);
      ChunkKeepsInfo(DownloadChunk(u, chunk[..r], restart), chunk[r..], restart);
    }
  }

  lemma ChunkKeepsInfo(u: Usb, chunk: Bytes, restart: bool)
    ensures DownloadChunk(u, chunk, restart).info == u.info
  {
    hide TrySend;
  }

  lemma CommandKeepsInfo(u: Usb, c: Command, restart: bool, headerSent: bool)
    ensures HandleCommand(u, c, restart, headerSent).0.info == u.info
  {
    hide Open, DataHeader, StartDownload, FinishFlash;
    if c.Download? { DownloadKeepsInfo(u, c.len, c.kind, restart, headerSent); }
    if c.Flash? { FlashKeepsInfo(u); }
  }

  lemma DownloadKeepsInfo(u: Usb, len: nat, kind: DownloadKind, restart: bool, headerSent: bool)
    ensures StartDownload(u, len, kind, restart, headerSent).0.info == u.info
  {
    hide Open, DataHeader;
  }

  lemma FlashKeepsInfo(u: Usb)
    ensures FinishFlash(u).0.info == u.info
  {
  }

  /** The input that ends a transfer from outside, and what the host is sent for it. */
  predicate Tears(u: Usb, i: Input) {
    i.Broken? || i.Gone? || (i.Stalled? && (u.Active() || u.pendingFlash || u.finishPending))
  }

  /**
   After any run, a stall in a transfer or a broken read is answered with one "bad size", a lost connection with
   nothing; what the function says and does from then on is what it would say and do after power-up.  A stall
   outside a transfer changes nothing.
   */
  lemma ResetIsolates(info: Info, before: seq<Input>, i: Input, after: seq<Input>)
    requires i.Stalled? || i.Broken? || i.Gone?
    ensures var u := RunUsb(Start(info), before);
            var sent := u.out + if i.Gone? then [] else [FailBadSize];
            var later := RunUsb(Take(u, i), after);
            var anew := RunUsb(Start(info), after);
            if Tears(u, i) then
              && later == Past(anew, sent, u.commands)
              && CanRunUsb(Take(u, i), after) == CanRunUsb(Start(info), after)
            else later == RunUsb(u, after)
  {
    hide RunUsb, CanRunUsb;
    InfoStays(Start(info), before);
    var u := RunUsb(Start(info), before);
    if Tears(u, i) {
      var sent := u.out + if i.Gone? then [] else [FailBadSize];
      assert u.out + [] == u.out && sent + [] == sent && u.commands + [] == u.commands;
      assert Take(u, i) == Past(Start(info), sent, u.commands);
      RunPast(Start(info), sent, u.commands, after);
    }
  }

  /** A download whose DATA header cannot be sent resets the function without another reply, and feeds nothing. */
  lemma LostHeaderResets(info: Info, before: seq<Input>, chunk: Bytes, restart: bool)
    ensures var u := RunUsb(Start(info), before);
            var parsed := ParseCommand(chunk);
            !u.Active() && parsed.Some? && parsed.value.0.Download? && (u.sink.IsOpen() || !restart) ==>
              Take(u, Input.Recv(chunk, restart, false)) == Past(Start(info), u.out, u.commands + [chunk])
  {
    hide RunUsb, ParseCommand, DownloadChunk;
    InfoStays(Start(info), before);
    var u := RunUsb(Start(info), before);
    assert u.out + [] == u.out && u.commands + [chunk] + [] == u.commands + [chunk];
  }
}
