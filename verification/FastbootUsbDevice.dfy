/** The fastboot USB function object, field by field as the daemon updates it. */
module FastbootUsbDevice {
  import opened ByteSeq
  import opened Proto
  import opened Swupdate
  import opened Dialog
  import opened FastbootUsb
  import SwupdateSession

  lemma {:induction false} MovesKeepOpen(s: Session, ms: seq<Move>)
    ensures DoAll(s, ms).IsOpen() == s.IsOpen()
    decreases |ms|
  {
    if ms != [] { MovesKeepOpen(Do(s, ms[0]), ms[1..]); }
  }

  /** A download command whose inlined payload had to wait might as well have come after the wait. */
  lemma WaitCommutes(u: Usb, c: Command, restart: bool, headerSent: bool, w1: seq<Move>)
    requires !u.Active() && HandleCommand(u, c, restart, headerSent).0.Active() && HandleCommand(u, c, restart, headerSent).1
    requires HandleCommand(u, c, restart, headerSent).0.sink.Full() || w1 == []
    ensures HandleCommand(After(u, w1), c, restart, headerSent) == (After(HandleCommand(u, c, restart, headerSent).0, w1), true)
  {
    hide StartDownload, FinishFlash, StartFinish, Begin, DataHeader, DoAll;
    if !c.Download? { OthersStayIdle(u, c, restart, headerSent); }
    StartCommutes(u, c.len, c.kind, restart, headerSent, w1);
  }

  lemma OthersStayIdle(u: Usb, c: Command, restart: bool, headerSent: bool)
    requires !u.Active() && !c.Download?
    ensures !HandleCommand(u, c, restart, headerSent).0.Active()
  {
    hide DataHeader, Open;
  }

  lemma StartCommutes(u: Usb, len: nat, kind: DownloadKind, restart: bool, headerSent: bool, w1: seq<Move>)
    requires StartDownload(u, len, kind, restart, headerSent).1
    requires StartDownload(u, len, kind, restart, headerSent).0.sink.Full() || w1 == []
    ensures StartDownload(After(u, w1), len, kind, restart, headerSent) ==
            (After(StartDownload(u, len, kind, restart, headerSent).0, w1), true)
  {
    hide DataHeader, QueueCapacity, DoAll;
    MovesKeepOpen(u.sink, w1);
    CapacityAtLeastTwo(u.sink.maxBlock);
    if w1 == [] {
      NoMoves(u);
      NoMoves(StartDownload(u, len, kind, restart, headerSent).0);
    }
  }

  lemma NoMoves(u: Usb)
    ensures After(u, []) == u
  {
  }

  /** The waits a completion may make: the feed waits for room only. */
  predicate Waited(u: Usb, chunk: Bytes, restart: bool, headerSent: bool, w1: seq<Move>) {
    w1 == [] ||
    (if u.Active() then true
     else
       && ParseCommand(chunk).Some?
       && var v := u.(commands := u.commands + [chunk]);
          var (w, ok) := HandleCommand(v, ParseCommand(chunk).value.0, restart, headerSent);
          ok && w.Active() && ParseCommand(chunk).value.1 < |chunk| && w.sink.Full())
  }

  /** A completion that had to wait is the same completion arriving after the wait, unless it crosses the boundary. */
  lemma WaitingIsLater(u: Usb, chunk: Bytes, restart: bool, headerSent: bool, w1: seq<Move>, w2: seq<Move>)
    requires !(u.Active() && |chunk| > u.Remaining()) && Waited(u, chunk, restart, headerSent, w1)
    ensures RxWaiting(u, chunk, restart, headerSent, w1, w2) == RxChunk(After(u, w1), chunk, restart, headerSent)
  {
    hide FastbootUsb.DownloadChunk, HandleCommand, ParseCommand, DoAll;
    var v := u.(commands := u.commands + [chunk]);
    if w1 == [] {
      NoMoves(u);
      if ParseCommand(chunk).Some? { NoMoves(HandleCommand(v, ParseCommand(chunk).value.0, restart, headerSent).0); }
    } else if !u.Active() {
      WaitCommutes(v, ParseCommand(chunk).value.0, restart, headerSent, w1);
      assert After(u, w1).(commands := u.commands + [chunk]) == After(v, w1);
    }
  }

  class Device {
    const info: Info
    var sink: SwupdateSession.Sink
    var sessionOpen: bool
    var size: nat
    var done: nat
    var pendingFlash: bool
    var finishPending: bool
    var failReply: Option<Reply>
    var out: seq<Reply>
    var commands: seq<Bytes>

    function View(): Usb
      reads this, sink
    {
      Usb(info, sink.View(), sessionOpen, size, done, pendingFlash, finishPending, failReply, out, commands)
    }

    constructor (info: Info)
      ensures View() == Start(info) && fresh(sink)
    {
      this.info := info;
      sink := new SwupdateSession.Sink(RECV_BUFFER_SIZE);
      sessionOpen, size, done, pendingFlash, finishPending := false, 0, 0, false, false;
      failReply, out, commands := None, [], [];
    }

    method Send(r: Reply)
      modifies this
      ensures View() == Say(old(View()), r) && sink == old(sink)
    {
      out := out + [r];
    }

    method ResetState()
      modifies this
      ensures View() == FastbootUsb.ResetState(old(View())) && fresh(sink)
    {
      sink := new SwupdateSession.Sink(RECV_BUFFER_SIZE);
      sessionOpen, size, done := false, 0, 0;
      pendingFlash, finishPending, failReply := false, false, None;
    }

    method HardReset(reply: Option<Reply>)
      modifies this, sink
      ensures View() == FastbootUsb.HardReset(old(View()), reply) && fresh(sink)
      ensures old(sink).View() == Swupdate.Abort(old(sink.View()))
    {
      sink.Abort();
      ResetState();
      if reply.Some? { Send(reply.value); }
    }

    method FailDownload(reply: Reply)
      modifies this, sink
      ensures View() == FastbootUsb.FailDownload(old(View()), reply) && sink == old(sink)
    {
      sink.Abort();
      failReply := Some(reply);
    }

    method Begin(restart: bool) returns (ok: bool)
      modifies this, sink
      ensures (View(), ok) == FastbootUsb.Begin(old(View()), restart) && sink == old(sink)
    {
      ok := sink.Open(restart);
      if !ok { Send(FailOpen); }
    }

    method StartFinish() returns (ok: bool)
      modifies this, sink
      ensures (View(), ok) == FastbootUsb.StartFinish(old(View())) && sink == old(sink)
    {
      var open := sink.IsOpen();
      if !open {
        Send(FailClose);
        return false;
      }
      sink.Eof();
      finishPending := true;
      return true;
    }

    method StartDownload(len: nat, kind: DownloadKind, restart: bool, headerSent: bool) returns (ok: bool)
      modifies this, sink
      ensures (View(), ok) == FastbootUsb.StartDownload(old(View()), len, kind, restart, headerSent)
      ensures sink == old(sink) || fresh(sink)
    {
      var open := sink.IsOpen();
      if !open {
        var begun := Begin(restart);
        if !begun { return false; }
      }
      if !headerSent {
        HardReset(None);
        return false;
      }
      Send(Raw(DataHeader(len)));
      size, done := len, 0;
      pendingFlash := kind.Fastboot? || !sessionOpen;
      if len == 0 { Send(Okay); }
      return true;
    }

    method FinishFlash() returns (ok: bool)
      modifies this, sink
      ensures (View(), ok) == FastbootUsb.FinishFlash(old(View())) && sink == old(sink)
    {
      if !pendingFlash {
        Send(FailFlash);
        return false;
      }
      if done < size {
        Send(FailBadSize);
        return false;
      }
      Send(InfoWait);
      ok := StartFinish();
      if !ok { pendingFlash := false; }
    }

    method Handle(c: Command, restart: bool, headerSent: bool) returns (ok: bool)
      modifies this, sink
      ensures (View(), ok) == HandleCommand(old(View()), c, restart, headerSent)
      ensures sink == old(sink) || fresh(sink)
    {
      match c {
        case WOpen =>
          ok := Begin(restart);
          if ok {
            sessionOpen, pendingFlash := true, false;
            Send(Okay);
          }
        case GetVar(arg) =>
          ok := arg in info.vars;
          Send(if ok then Raw(info.vars[arg]) else FailCmd);
        case Fetch(_) =>
          Send(Raw(DataHeader(|info.sysinfo|)));
          Send(Raw(info.sysinfo));
          Send(Okay);
          ok := true;
        case FetchUnknownPart =>
          Send(FailUnknownPart);
          ok := false;
        case Download(len, kind) => ok := StartDownload(len, kind, restart, headerSent);
        case Flash => ok := FinishFlash();
        case Close => ok := StartFinish();
        case Unsupported =>
          Send(FailCmd);
          ok := false;
      }
    }

    /** Feeds one piece of download data, waiting for a slot when the queue is full. */
    method DownloadChunk(chunk: Bytes, restart: bool) returns (ghost waited: seq<Move>)
      requires Inv(sink.View())
      modifies this, sink
      ensures View() == FastbootUsb.DownloadChunk(After(old(View()), waited), chunk, restart)
      ensures Inv(sink.View()) && (sink == old(sink) || fresh(sink))
      ensures waited == [] || old(sink.View()).Full()
    {
      waited := [];
      if chunk == [] { return; }
      if failReply.Some? {
        var reply := failReply.value;
        done := done + |chunk|;
        if done >= size {
          Send(reply);
          ResetState();
        }
        return;
      }
      waited := Feed(chunk, restart);
    }

    /** `try_send`, then `send` when the queue was full. */
    method Enqueue(chunk: Bytes, restart: bool) returns (feed: Feed, ghost waited: seq<Move>)
      requires Inv(sink.View())
      modifies sink
      ensures Inv(sink.View()) && !feed.FeedFull? && (waited == [] || old(sink.View()).Full())
      ensures (sink.View(), feed) == TrySend(DoAll(old(sink.View()), waited), chunk, restart)
    {
      hide Inv, QueueCapacity;
      waited := [];
      SendKeepsInv(sink.View(), chunk, restart);
      ghost var before := sink.View();
      feed := sink.TrySend(chunk, restart);
      if feed.FeedFull? {
        FullIsOpen(before, restart);
        feed, waited := sink.Send(chunk, restart);
      }
    }

    method Feed(chunk: Bytes, restart: bool) returns (ghost waited: seq<Move>)
      requires Inv(sink.View()) && chunk != [] && failReply.None?
      modifies this, sink
      ensures View() == FastbootUsb.DownloadChunk(After(old(View()), waited), chunk, restart)
      ensures Inv(sink.View()) && (sink == old(sink) || fresh(sink))
      ensures waited == [] || old(sink.View()).Full()
    {
      hide Inv, TrySend, DoAll;
      var feed, moves := Enqueue(chunk, restart);
      waited := moves;
      done := done + |chunk|;
      if feed.FeedError? {
        AbortKeepsInv(sink.View());
        FailDownload(FailEpipe);
        if done >= size {
          Send(FailEpipe);
          ResetState();
          NewInv(RECV_BUFFER_SIZE);
        }
      } else if done >= size {
        Send(Okay);
      }
    }

    /** Routes one completion to the command parser or the download. */
    method RxChunk(chunk: Bytes, restart: bool, headerSent: bool) returns (ghost w1: seq<Move>, ghost w2: seq<Move>)
      requires Inv(sink.View())
      modifies this, sink
      ensures View() == RxWaiting(old(View()), chunk, restart, headerSent, w1, w2)
      ensures Waited(old(View()), chunk, restart, headerSent, w1)
      ensures !(old(View()).Active() && |chunk| > old(View()).Remaining()) ==>
                View() == FastbootUsb.RxChunk(After(old(View()), w1), chunk, restart, headerSent)
      ensures sink == old(sink) || fresh(sink)
    {
      hide Inv, FastbootUsb.DownloadChunk, HandleCommand, ParseCommand;
      w1, w2 := Route(chunk, restart, headerSent);
      if !(old(View()).Active() && |chunk| > old(View()).Remaining()) {
        WaitingIsLater(old(View()), chunk, restart, headerSent, w1, w2);
      }
    }

    method Route(chunk: Bytes, restart: bool, headerSent: bool) returns (ghost w1: seq<Move>, ghost w2: seq<Move>)
      requires Inv(sink.View())
      modifies this, sink
      ensures View() == RxWaiting(old(View()), chunk, restart, headerSent, w1, w2)
      ensures Waited(old(View()), chunk, restart, headerSent, w1)
      ensures sink == old(sink) || fresh(sink)
    {
      hide Inv, FastbootUsb.DownloadChunk, HandleCommand, ParseCommand, Session.Full;
      w1, w2 := [], [];
      if done >= size {
        commands := commands + [chunk];
        var parsed := ParseCommand(chunk);
        if parsed.None? { return; }
        CommandKeepsInv(View(), parsed.value.0, restart, headerSent);
        ParseConsumes(chunk);
        var handled := Handle(parsed.value.0, restart, headerSent);
        if handled && done < size && parsed.value.1 < |chunk| {
          w1 := DownloadChunk(chunk[parsed.value.1..], restart);
        }
        return;
      }
      var remaining := size - done;
      if |chunk| <= remaining {
        w1 := DownloadChunk(chunk, restart);
        return;
      }
      w1 := DownloadChunk(chunk[..remaining], restart);
      if done < size { return; }
      w2 := DownloadChunk(chunk[remaining..], restart);
    }

    /** Looks for a SWUpdate failure before the next read is primed. */
    method CheckFailed()
      modifies this, sink
      ensures View() == FastbootUsb.CheckFailed(old(View())) && sink == old(sink)
    {
      if finishPending || done >= size || failReply.Some? { return; }
      var open := sink.IsOpen();
      if !open { return; }
      var verdict := sink.PollStatus();
      if verdict == Some(Failure) { FailDownload(FailEpipe); }
    }

    /** Awaits the verdict of a finished transfer and answers it. */
    method Finish() returns (ghost waited: seq<Move>)
      modifies this, sink
      ensures View() == FastbootUsb.Finish(After(old(View()), waited)) && fresh(sink)
    {
      var v, moves := sink.Finished();
      waited := moves;
      ResetState();
      Send(if v.Success? then Okay else FailClose);
    }
  }

  lemma FullIsOpen(s: Session, restart: bool)
    requires s.Full()
    ensures EnsureOpen(s, restart) == (s, true)
  {
  }

  lemma AbortKeepsInv(s: Session)
    requires Inv(s)
    ensures Inv(Swupdate.Abort(s))
  {
    ApplyKeepsInv(s, OpAbort);
  }

  lemma CommandKeepsInv(u: Usb, c: Command, restart: bool, headerSent: bool)
    requires Inv(u.sink)
    ensures Inv(HandleCommand(u, c, restart, headerSent).0.sink)
  {
    hide Inv, DataHeader, Open;
    ApplyKeepsInv(u.sink, OpOpen(restart));
    ApplyKeepsInv(u.sink, OpEof);
    NewInv(RECV_BUFFER_SIZE);
  }
}
