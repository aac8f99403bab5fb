/** Framing of downloads on USB: the announced boundary is respected whatever SWUpdate does. */
module FastbootUsbFraming {
  import opened ByteSeq
  import opened Proto
  import opened Swupdate
  import opened Dialog
  import opened FastbootUsb

  // --- Every reachable state --------------------------------------------------------

  /** A verdict is only awaited between downloads; a failure is only pending inside one, and it is a write failure. */
  predicate FlagsAgree(u: Usb) {
    && (u.finishPending ==> !u.Active())
    && (u.failReply.Some? ==> u.Active() && u.failReply.value == FailEpipe)
  }

  /** `v` adds replies to those of `u`, "bad size" not among them. */
  predicate Said(u: Usb, v: Usb) {
    u.out <= v.out && FailBadSize !in v.out[|u.out|..]
  }

  lemma SaidTrans(u: Usb, v: Usb, w: Usb)
    requires Said(u, v) && Said(v, w)
    ensures Said(u, w)
  {
    assert w.out[|u.out|..] == v.out[|u.out|..] + w.out[|v.out|..];
  }

  lemma ChunkKeepsFlags(u: Usb, chunk: Bytes, restart: bool)
    requires FlagsAgree(u) && !u.finishPending
    ensures var v := DownloadChunk(u, chunk, restart); FlagsAgree(v) && !v.finishPending && Said(u, v)
  {
    hide TrySend, Said, Swupdate.Abort;
    var v := DownloadChunk(u, chunk, restart);
    assert u.out + [] == u.out;
    var rs := if v.out == u.out then [] else if v.out == u.out + [Okay] then [Okay] else [FailEpipe];
    assert v.out == u.out + rs;
    SaidMore(u, v, rs);
  }

  lemma SaidMore(u: Usb, v: Usb, rs: seq<Reply>)
    requires v.out == u.out + rs && FailBadSize !in rs
    ensures Said(u, v)
  {
    assert v.out[|u.out|..] == rs;
  }

  lemma StartDownloadKeepsFlags(u: Usb, len: nat, kind: DownloadKind, restart: bool, headerSent: bool)
    requires FlagsAgree(u) && !u.finishPending && !u.Active()
    ensures var v := StartDownload(u, len, kind, restart, headerSent).0;
            FlagsAgree(v) && Said(u, v) && v.failReply.None? && !v.finishPending
  {
    hide Open, DataHeader, Said;
    var v := StartDownload(u, len, kind, restart, headerSent).0;
    var b := if u.sink.IsOpen() then u else Begin(u, restart).0;
    var rs := if !u.sink.IsOpen() && !Begin(u, restart).1 then [FailOpen]
              else if !headerSent then []
              else [Raw(DataHeader(len))] + if len == 0 then [Okay] else [];
    assert v.out == u.out + rs;
    SaidMore(u, v, rs);
  }

  lemma FinishKeepsFlags(u: Usb, c: Command)
    requires FlagsAgree(u) && !u.finishPending && !u.Active() && (c.Flash? || c.Close?)
    ensures var v := HandleCommand(u, c, false, true).0;
            FlagsAgree(v) && Said(u, v) && v.failReply.None? && !v.Active()
    ensures forall restart, headerSent :: HandleCommand(u, c, restart, headerSent) == HandleCommand(u, c, false, true)
  {
    hide Said;
    var v := HandleCommand(u, c, false, true).0;
    var rs := v.out[|u.out|..];
    assert v.out == u.out + rs;
    SaidMore(u, v, rs);
  }

  lemma OtherKeepsFlags(u: Usb, c: Command, restart: bool, headerSent: bool)
    requires FlagsAgree(u) && !u.finishPending && !u.Active() && !c.Flash? && !c.Close? && !c.Download?
    ensures var v := HandleCommand(u, c, restart, headerSent).0;
            FlagsAgree(v) && Said(u, v) && v.failReply.None? && !v.Active()
  {
    hide Open, DataHeader, Said, StartDownload, FinishFlash, StartFinish;
    var v := HandleCommand(u, c, restart, headerSent).0;
    var rs := v.out[|u.out|..];
    assert v.out == u.out + rs;
    SaidMore(u, v, rs);
  }

  lemma CommandKeepsFlags(u: Usb, c: Command, restart: bool, headerSent: bool)
    requires FlagsAgree(u) && !u.finishPending && !u.Active()
    ensures var v := HandleCommand(u, c, restart, headerSent).0;
            FlagsAgree(v) && Said(u, v) && v.failReply.None? && (v.Active() ==> !v.finishPending)
  {
    hide Said, StartDownload, FinishFlash, StartFinish, Begin;
    if c.Download? { StartDownloadKeepsFlags(u, c.len, c.kind, restart, headerSent); }
    else if c.Flash? || c.Close? { FinishKeepsFlags(u, c); }
    else { OtherKeepsFlags(u, c, restart, headerSent); }
  }

  lemma RxKeepsFlags(u: Usb, chunk: Bytes, restart: bool, headerSent: bool)
    requires FlagsAgree(u) && !u.finishPending
    ensures var v := RxChunk(u, chunk, restart, headerSent); FlagsAgree(v) && Said(u, v)
  {
    hide DownloadChunk, HandleCommand, ParseCommand;
    if !u.Active() {
      var v := u.(commands := u.commands + [chunk]);
      var parsed := ParseCommand(chunk);
      if parsed.Some? {
        CommandKeepsFlags(v, parsed.value.0, restart, headerSent);
        var w := HandleCommand(v, parsed.value.0, restart, headerSent).0;
        if w.Active() && parsed.value.1 < |chunk| {
          ChunkKeepsFlags(w, chunk[parsed.value.1..], restart);
          SaidTrans(v, w, DownloadChunk(w, chunk[parsed.value.1..], restart));
        }
      }
    } else if |chunk| <= u.Remaining() {
      ChunkKeepsFlags(u, chunk, restart);
    } else {
      var v := DownloadChunk(u, chunk[..u.Remaining()], restart);
      ChunkKeepsFlags(u, chunk[..u.Remaining()], restart);
      ChunkKeepsFlags(v, chunk[u.Remaining()..], restart);
      SaidTrans(u, v, DownloadChunk(v, chunk[u.Remaining()..], restart));
    }
  }

  lemma TakeKeepsFlags(u: Usb, i: Input)
    requires FlagsAgree(u) && Ready(u, i)
    ensures FlagsAgree(Take(u, i))
    ensures i.Recv? ==> Said(u, Take(u, i))
  {
    hide RxChunk, MayFeed;
    if i.Recv? { RxKeepsFlags(u, i.chunk, i.restart, i.headerSent); }
  }

  /** In every reachable state the flags agree, so a received chunk is never answered with "bad size". */
  lemma {:induction false} FlagsAlwaysAgree(u: Usb, inputs: seq<Input>)
    requires FlagsAgree(u) && CanRunUsb(u, inputs)
    ensures FlagsAgree(RunUsb(u, inputs))
    ensures forall i: Input :: i.Recv? && Ready(RunUsb(u, inputs), i) ==> Said(RunUsb(u, inputs), Take(RunUsb(u, inputs), i))
    decreases |inputs|
  {
    hide Take, Ready;
    if inputs != [] {
      TakeKeepsFlags(u, inputs[0]);
      FlagsAlwaysAgree(Take(u, inputs[0]), inputs[1..]);
    } else {
      forall i: Input | i.Recv? && Ready(u, i) ensures Said(u, Take(u, i)) { TakeKeepsFlags(u, i); }
    }
  }

  lemma FlagsFromStart(info: Info, inputs: seq<Input>)
    requires CanRunUsb(Start(info), inputs)
    ensures FlagsAgree(RunUsb(Start(info), inputs))
    ensures var u := RunUsb(Start(info), inputs);
            forall i: Input :: i.Recv? && Ready(u, i) ==> Said(u, Take(u, i))
  {
    FlagsAlwaysAgree(Start(info), inputs);
  }

  // --- One download -----------------------------------------------------------------

  /** The state right after a download of `size` bytes was announced and answered with DATA. */
  ghost predicate Announced(u: Usb) {
    && u.size > 0 && u.done == 0 && u.failReply.None? && !u.finishPending
    && Inv(u.sink) && u.sink.Opened()
  }

  /** Inputs of the data phase: background moves, looks at SWUpdate, and completions that stop at the boundary. */
  predicate DataPhase(u: Usb, inputs: seq<Input>)
    decreases |inputs|
  {
    inputs == [] ||
    (&& Ready(u, inputs[0])
     && (inputs[0].Env? || inputs[0].Check? || (inputs[0].Recv? && u.Active() && |inputs[0].chunk| <= u.Remaining()))
     && DataPhase(Take(u, inputs[0]), inputs[1..]))
  }

  function Received(inputs: seq<Input>): Bytes
    decreases |inputs|
  {
    if inputs == [] then [] else (if inputs[0].Recv? then inputs[0].chunk else []) + Received(inputs[1..])
  }

  /** Where a download `a` stands after `data`. */
  ghost predicate Framed(a: Usb, u: Usb, data: Bytes) {
    && u.info == a.info && u.commands == a.commands && !u.finishPending && Inv(u.sink)
    && |data| <= a.size
    && (|data| < a.size ==>
          && u.size == a.size && u.done == |data| && u.out == a.out
          && (u.failReply.None? ==> u.sink.Opened() && u.sink.Handed() == a.sink.Handed() + data)
          && (u.failReply.Some? ==> u.failReply == Some(FailEpipe) && u.sink.Handed() <= a.sink.Handed() + data))
    && (|data| == a.size ==>
          && !u.Active() && u.failReply.None?
          && (u.out == a.out + [Okay] || u.out == a.out + [FailEpipe])
          && (u.out == a.out + [Okay] ==> u.sink.Handed() == a.sink.Handed() + data)
          && (u.out == a.out + [FailEpipe] ==> !u.sink.IsOpen() && u.sink.Handed() == []))
  }

  lemma ChunkFrames(a: Usb, u: Usb, data: Bytes, chunk: Bytes, restart: bool)
    requires Announced(a) && Framed(a, u, data) && |data| + |chunk| <= a.size && |data| < a.size
    requires u.failReply.None? ==> !u.sink.Full()
    ensures Framed(a, DownloadChunk(u, chunk, restart), data + chunk)
  {
    hide TrySend, Session.Full;
    if chunk == [] {
      assert data + chunk == data;
    } else if u.failReply.None? {
      SendHands(u.sink, chunk, restart);
      assert a.sink.Handed() + data + chunk == a.sink.Handed() + (data + chunk);
    } else {
      assert a.sink.Handed() + data + chunk == a.sink.Handed() + (data + chunk);
      assert a.out + [Okay] != a.out + [FailEpipe] by { assert (a.out + [Okay])[|a.out|] == Okay; }
    }
  }

  lemma MoveFrames(a: Usb, u: Usb, data: Bytes, m: Move)
    requires Framed(a, u, data)
    ensures Framed(a, u.(sink := Do(u.sink, m)), data)
  {
    MoveKeepsInv(u.sink, m);
    if !u.sink.IsOpen() { MoveKeepsClosed(u.sink, m); }
  }

  lemma MoveKeepsClosed(s: Session, m: Move)
    requires Inv(s) && !s.IsOpen()
    ensures !Do(s, m).IsOpen()
  {
  }

  lemma CheckFrames(a: Usb, u: Usb, data: Bytes)
    requires Announced(a) && Framed(a, u, data)
    ensures Framed(a, CheckFailed(u), data)
  {
    if u.failReply.None? && u.Active() && u.sink.IsOpen() {
      assert Inv(PollStatus(u.sink).0);
      assert Inv(Swupdate.Abort(PollStatus(u.sink).0));
    }
  }

  lemma {:induction false} FramesFrom(a: Usb, u: Usb, data: Bytes, inputs: seq<Input>)
    requires Announced(a) && Framed(a, u, data) && DataPhase(u, inputs)
    ensures Framed(a, RunUsb(u, inputs), data + Received(inputs))
    decreases |inputs|
  {
    hide DownloadChunk, CheckFailed, Framed, ParseCommand, HandleCommand, Finish, Do, Announced;
    if inputs == [] {
      assert data + [] == data;
    } else {
      var i := inputs[0];
      var next := Take(u, i);
      var piece: Bytes := if i.Recv? then i.chunk else [];
      assert data + [] == data;
      FramedFacts(a, u, data);
      match i {
        case Env(m) => MoveFrames(a, u, data, m);
        case Check => CheckFrames(a, u, data);
        case Recv(chunk, restart, headerSent) => ChunkFrames(a, u, data, chunk, restart);
      }
      FramesFrom(a, next, data + piece, inputs[1..]);
      assert data + piece + Received(inputs[1..]) == data + Received(inputs);
    }
  }

  /**
   Main framing result.  From an announced download on, for every interleaving of completions that stop at
   the boundary, looks at SWUpdate and background moves: no byte goes to the command parser, nothing is
   replied before the boundary, exactly one OKAY or FAIL is sent at it, and an OKAY means the session was
   handed the whole payload.  From the first moment a failure is recorded, nothing more is handed over.
   */
  lemma DownloadFrames(a: Usb, u: Usb, data: Bytes, inputs: seq<Input>)
    requires Announced(a) && Framed(a, u, data) && DataPhase(u, inputs)
    ensures var e := RunUsb(u, inputs);
            && Framed(a, e, data + Received(inputs))
            && forall k :: 0 <= k <= |inputs| && RunUsb(u, inputs[..k]).failReply.Some? && e.failReply.Some? ==>
                 && e.sink.Handed() == RunUsb(u, inputs[..k]).sink.Handed()
                 && e.sink.Handed() <= a.sink.Handed() + (data + Received(inputs[..k]))
  {
    hide Framed, RunUsb, DataPhase;
    FramesFrom(a, u, data, inputs);
    var e := RunUsb(u, inputs);
    forall k | 0 <= k <= |inputs| && RunUsb(u, inputs[..k]).failReply.Some? && e.failReply.Some?
      ensures e.sink.Handed() == RunUsb(u, inputs[..k]).sink.Handed()
      ensures e.sink.Handed() <= a.sink.Handed() + (data + Received(inputs[..k]))
    {
      var x := RunUsb(u, inputs[..k]);
      assert inputs == inputs[..k] + inputs[k..];
      PhaseSplit(u, inputs[..k], inputs[k..]);
      FramesFrom(a, u, data, inputs[..k]);
      FailedFrame(a, x, data + Received(inputs[..k]));
      FailureDrains(x, inputs[k..]);
    }
  }

  lemma FailedFrame(a: Usb, u: Usb, data: Bytes)
    requires Framed(a, u, data) && u.failReply.Some?
    ensures FlagsAgree(u) && u.sink.Handed() <= a.sink.Handed() + data
  {
  }

  lemma {:induction false} PhaseSplit(u: Usb, xs: seq<Input>, ys: seq<Input>)
    requires DataPhase(u, xs + ys)
    ensures DataPhase(u, xs) && DataPhase(RunUsb(u, xs), ys)
    ensures RunUsb(u, xs + ys) == RunUsb(RunUsb(u, xs), ys)
    decreases |xs|
  {
    hide Take, Ready;
    if xs == [] {
      assert xs + ys == ys;
    } else {
      assert (xs + ys)[0] == xs[0] && (xs + ys)[1..] == xs[1..] + ys;
      PhaseSplit(Take(u, xs[0]), xs[1..], ys);
    }
  }

  lemma FramedFacts(a: Usb, u: Usb, data: Bytes)
    requires Framed(a, u, data)
    ensures |data| <= a.size && (u.Active() ==> |data| < a.size && u.Remaining() == a.size - |data|)
  {
  }

  /** Where the failed download `u` stands after `data` more bytes. */
  predicate DrainedTo(u: Usb, x: Usb, data: Bytes) {
    && |data| <= u.Remaining()
    && (|data| < u.Remaining() ==>
          x == u.(done := u.done + |data|, sink := x.sink) && x.sink.Handed() == u.sink.Handed())
    && (|data| == u.Remaining() ==> x == ResetState(u).(out := u.out + [FailEpipe]))
  }

  lemma DrainStep(u: Usb, x: Usb, data: Bytes, i: Input)
    requires FlagsAgree(u) && u.failReply.Some? && DrainedTo(u, x, data)
    requires i.Env? || i.Check? || (i.Recv? && x.Active() && |i.chunk| <= x.Remaining())
    ensures DrainedTo(u, Take(x, i), data + if i.Recv? then i.chunk else [])
  {
    hide ParseCommand, HandleCommand, TrySend;
    assert data + [] == data;
  }

  lemma {:induction false} DrainsFrom(u: Usb, x: Usb, data: Bytes, inputs: seq<Input>)
    requires FlagsAgree(u) && u.failReply.Some? && DrainedTo(u, x, data) && DataPhase(x, inputs)
    ensures DrainedTo(u, RunUsb(x, inputs), data + Received(inputs))
    decreases |inputs|
  {
    hide Take, DrainedTo, Ready;
    if inputs == [] {
      assert data + [] == data;
    } else {
      DrainStep(u, x, data, inputs[0]);
      var piece: Bytes := if inputs[0].Recv? then inputs[0].chunk else [];
      DrainsFrom(u, Take(x, inputs[0]), data + piece, inputs[1..]);
      assert data + piece + Received(inputs[1..]) == data + Received(inputs);
    }
  }

  /**
   From a failure to the boundary, over every data phase: no byte is handed to a session and nothing is said;
   at the boundary the one FAIL is sent and the function starts over with a session that was handed nothing.
   */
  lemma FailureDrains(u: Usb, inputs: seq<Input>)
    requires FlagsAgree(u) && u.failReply.Some? && DataPhase(u, inputs)
    ensures var e, data := RunUsb(u, inputs), Received(inputs);
            && |data| <= u.Remaining() && e.commands == u.commands
            && (|data| < u.Remaining() ==>
                  e.failReply == u.failReply && e.out == u.out && e.sink.Handed() == u.sink.Handed())
            && (|data| == u.Remaining() ==>
                  e.out == u.out + [FailEpipe] && e.sink == New(RECV_BUFFER_SIZE) && e.failReply.None? && !e.Active())
  {
    hide RunUsb, DataPhase;
    DrainsFrom(u, u, [], inputs);
    assert [] + Received(inputs) == Received(inputs);
  }

  /** A download command of at least one byte. */
  predicate IsDownload(chunk: Bytes) {
    ParseCommand(chunk).Some? && ParseCommand(chunk).value.0.Download? && ParseCommand(chunk).value.0.len > 0
  }

  /** What was handed to the transfer that a download joins; one that it opens starts from nothing. */
  function StreamBefore(u: Usb): Bytes { if u.sink.IsOpen() then u.sink.Handed() else [] }

  /** The function right after a download command was answered. */
  function Answered(u: Usb, chunk: Bytes, restart: bool): Usb
    requires ParseCommand(chunk).Some?
  {
    HandleCommand(u.(commands := u.commands + [chunk]), ParseCommand(chunk).value.0, restart, true).0
  }

  /** A download command ends in a refusal, or in an announced download (an inlined payload being its first data). */
  lemma CommandAnnounces(u: Usb, chunk: Bytes, restart: bool)
    requires FlagsAgree(u) && !u.finishPending && !u.Active() && Inv(u.sink) && IsDownload(chunk)
    ensures var len := ParseCommand(chunk).value.0.len;
            var v, a := RxChunk(u, chunk, restart, true), Answered(u, chunk, restart);
            if !u.sink.IsOpen() && restart then v.out == u.out + [FailOpen] && !v.Active()
            else
              && Announced(a) && a.size == len && a.out == u.out + [Raw(DataHeader(len))]
              && a.commands == u.commands + [chunk] && a.sink.Handed() == StreamBefore(u)
              && (|Inlined(chunk)| <= len && (Inlined(chunk) == [] || !a.sink.Full()) ==> Framed(a, v, Inlined(chunk)))
  {
    hide ParseCommand, DataHeader;
    var inlined := Inlined(chunk);
    ParseConsumes(chunk);
    assert |inlined| == |chunk| - ParseCommand(chunk).value.1;
    OpenKeepsInv(u.sink, restart);
    if u.sink.IsOpen() || !restart {
      var a := Answered(u, chunk, restart);
      if u.sink.IsOpen() { OpenedWhenOpen(u.sink); }
      assert Announced(a);
      AnnouncedFrames(a);
      if !a.sink.Full() && |inlined| <= a.size { ChunkFrames(a, a, [], inlined, restart); }
      assert [] + inlined == inlined;
      assert DownloadChunk(a, [], restart) == a;
    }
  }

  /**
   Payload inlined behind an accepted download command, however much there is: it is acknowledged once, as soon
   as it reaches the announced length, and all of it is handed to SWUpdate.  So only announced bytes are handed
   over if and only if the inlined payload is no longer than announced.
   */
  lemma InlinedPayload(u: Usb, chunk: Bytes, restart: bool, w1: seq<Move>, w2: seq<Move>)
    requires FlagsAgree(u) && !u.finishPending && !u.Active() && Inv(u.sink) && IsDownload(chunk)
    requires u.sink.IsOpen() || !restart
    requires Inlined(chunk) == [] || !DoAll(Answered(u, chunk, restart).sink, w1).Full()
    ensures var len, inlined := ParseCommand(chunk).value.0.len, Inlined(chunk);
            var v := RxWaiting(u, chunk, restart, true, w1, w2);
            && v.commands == u.commands + [chunk]
            && v.out == u.out + [Raw(DataHeader(len))] + (if |inlined| >= len then [Okay] else [])
            && (v.Active() <==> |inlined| < len)
            && v.sink.Handed() == StreamBefore(u) + inlined
            && (|v.sink.Handed()| <= |StreamBefore(u)| + len <==> |inlined| <= len)
  {
    hide ParseCommand, DataHeader, HandleCommand, DownloadChunk, DoAll, Announced, Session.Full;
    ParseConsumes(chunk);
    var a := Answered(u, chunk, restart);
    CommandAnnounces(u, chunk, restart);
    AnnouncedActive(a);
    DownloadHandled(u, chunk, restart);
    if Inlined(chunk) == [] {
      assert a.sink.Handed() + [] == a.sink.Handed() && a.out + [] == a.out;
    } else {
      FeedInlined(a, Inlined(chunk), restart, w1);
    }
  }

  lemma AnnouncedActive(a: Usb)
    requires Announced(a)
    ensures a.Active()
  {
  }

  lemma DownloadHandled(u: Usb, chunk: Bytes, restart: bool)
    requires IsDownload(chunk) && (u.sink.IsOpen() || !restart)
    ensures HandleCommand(u.(commands := u.commands + [chunk]), ParseCommand(chunk).value.0, restart, true).1
  {
    hide ParseCommand, DataHeader;
  }

  lemma FeedInlined(a: Usb, data: Bytes, restart: bool, w1: seq<Move>)
    requires Announced(a) && data != [] && !DoAll(a.sink, w1).Full()
    ensures var v := DownloadChunk(After(a, w1), data, restart);
            && v.commands == a.commands && v.out == a.out + (if |data| >= a.size then [Okay] else [])
            && (v.Active() <==> |data| < a.size) && v.sink.Handed() == a.sink.Handed() + data
  {
    hide TrySend, DoAll, Session.Full;
    MovesKeepInv(a.sink, w1);
    SendHands(DoAll(a.sink, w1), data, restart);
    assert a.out + [] == a.out;
  }

  lemma AnnouncedFrames(a: Usb)
    requires Announced(a)
    ensures Framed(a, a, [])
  {
    assert a.sink.Handed() + [] == a.sink.Handed();
  }

  lemma OpenedWhenOpen(s: Session)
    requires Inv(s) && s.IsOpen()
    ensures s.Opened()
  {
  }

  /** Between downloads nothing is received, said or handed over in a data phase. */
  lemma {:induction false} IdlePhase(u: Usb, inputs: seq<Input>)
    requires !u.Active() && DataPhase(u, inputs)
    ensures var e := RunUsb(u, inputs);
            Received(inputs) == [] && e == u.(sink := e.sink) && e.sink.Handed() == u.sink.Handed()
    decreases |inputs|
  {
    hide Take, Ready;
    if inputs != [] {
      IdleStep(u, inputs[0]);
      IdlePhase(Take(u, inputs[0]), inputs[1..]);
    }
  }

  lemma IdleStep(u: Usb, i: Input)
    requires !u.Active() && (i.Env? || i.Check?)
    ensures var v := Take(u, i); v == u.(sink := v.sink) && v.sink.Handed() == u.sink.Handed()
  {
    hide Enabled;
  }

  /** The whole of a download, from its command chunk to wherever the data phase has got. */
  lemma DownloadEndsOnce(u: Usb, chunk: Bytes, restart: bool, inputs: seq<Input>)
    requires FlagsAgree(u) && !u.Active() && Inv(u.sink) && Ready(u, Input.Recv(chunk, restart, true)) && IsDownload(chunk)
    requires u.sink.IsOpen() || !restart
    requires DataPhase(RxChunk(u, chunk, restart, true), inputs)
    ensures var len := ParseCommand(chunk).value.0.len;
            var e := RunUsb(RxChunk(u, chunk, restart, true), inputs);
            var data := Inlined(chunk) + Received(inputs);
            var header := u.out + [Raw(DataHeader(len))];
            && e.commands == u.commands + [chunk]
            && (|Inlined(chunk)| <= len ==> |data| <= len)
            && (|data| < len ==> e.out == header && e.Active())
            && (|data| >= len ==> (e.out == header + [Okay] || e.out == header + [FailEpipe]) && !e.Active())
            && (e.out == header + [Okay] ==> e.sink.Handed() == StreamBefore(u) + data)
            && (e.out == header + [FailEpipe] ==> e.sink.Handed() == [])
  {
    hide ParseCommand, DataHeader, RxChunk, HandleCommand, Framed, Session.Full, RunUsb, DataPhase, Announced, DoAll;
    var len, inlined := ParseCommand(chunk).value.0.len, Inlined(chunk);
    ParseConsumes(chunk);
    assert |inlined| == |chunk| - ParseCommand(chunk).value.1;
    CommandAnnounces(u, chunk, restart);
    var a, v := Answered(u, chunk, restart), RxChunk(u, chunk, restart, true);
    AnnouncedHasRoom(u, chunk, ParseCommand(chunk).value.0, restart);
    if |inlined| <= len {
      FramesFrom(a, v, inlined, inputs);
      FramedOutcome(a, RunUsb(v, inputs), inlined + Received(inputs));
    } else {
      NoMoves(a.sink);
      InlinedPayload(u, chunk, restart, [], []);
      NoWaiting(u, chunk, restart, true);
      IdlePhase(v, inputs);
      assert inlined + [] == inlined;
      OkayIsNotFail(a.out);
    }
  }

  lemma OkayIsNotFail(out: seq<Reply>)
    ensures out + [Okay] != out + [FailEpipe]
  {
    assert (out + [Okay])[|out|] == Okay;
  }

  lemma NoMoves(s: Session)
    ensures DoAll(s, []) == s
  {
  }

  lemma AnnouncedHasRoom(u: Usb, chunk: Bytes, cmd: Command, restart: bool)
    requires Inv(u.sink) && cmd.Download? && (u.sink.IsOpen() || !restart)
    ensures var a := HandleCommand(u.(commands := u.commands + [chunk]), cmd, restart, true).0;
            (!u.sink.Full() ==> !a.sink.Full()) && a.commands == u.commands + [chunk]
  {
    hide DataHeader, QueueCapacity;
    CapacityAtLeastTwo(u.sink.maxBlock);
  }

  lemma FramedOutcome(a: Usb, u: Usb, data: Bytes)
    requires Framed(a, u, data)
    ensures u.commands == a.commands && |data| <= a.size
    ensures |data| < a.size ==> u.out == a.out && u.Active()
    ensures |data| == a.size ==> (u.out == a.out + [Okay] || u.out == a.out + [FailEpipe]) && !u.Active()
    ensures u.out == a.out + [Okay] ==> u.sink.Handed() == a.sink.Handed() + data
    ensures u.out == a.out + [FailEpipe] ==> u.sink.Handed() == []
  {
  }

  // --- Completions that cross the boundary -------------------------------------------

  /** A download in progress, failed or on a live session. */
  ghost predicate InDownload(u: Usb) {
    && FlagsAgree(u) && u.Active() && !u.finishPending && Inv(u.sink)
    && (u.failReply.None? ==> u.sink.Opened())
  }

  /** The part of `chunk` up to the boundary, fed once the moves `w1` have made room. */
  function ToBoundary(u: Usb, chunk: Bytes, restart: bool, w1: seq<Move>): Usb
    requires |chunk| >= u.Remaining()
  {
    DownloadChunk(After(u, w1), chunk[..u.Remaining()], restart)
  }

  lemma BoundaryReply(u: Usb, chunk: Bytes, restart: bool, w1: seq<Move>)
    requires InDownload(u) && |chunk| >= u.Remaining()
    requires u.failReply.None? ==> !DoAll(u.sink, w1).Full()
    ensures var v := ToBoundary(u, chunk, restart, w1);
            && v.commands == u.commands && !v.Active() && v.failReply.None? && Inv(v.sink) && v.done >= v.size
            && (u.failReply.None? ==>
                  v.out == u.out + [Okay] && v.sink.Opened() && v.sink.Handed() == u.sink.Handed() + chunk[..u.Remaining()])
            && (u.failReply.Some? ==> v.out == u.out + [FailEpipe] && v.sink == New(RECV_BUFFER_SIZE))
  {
    hide TrySend, QueueCapacity, DoAll, Session.Full;
    var r := u.Remaining();
    MovesKeepInv(u.sink, w1);
    if u.failReply.None? { SendHands(DoAll(u.sink, w1), chunk[..r], restart); }
  }

  lemma SurplusReply(v: Usb, surplus: Bytes, restart: bool, w2: seq<Move>)
    requires !v.Active() && v.failReply.None? && Inv(v.sink) && surplus != [] && !DoAll(v.sink, w2).Full()
    requires v.sink.Opened() || v.sink == New(RECV_BUFFER_SIZE)
    ensures var w := DownloadChunk(After(v, w2), surplus, restart);
            && w.commands == v.commands && |w.out| == |v.out| + 1
            && (v.sink.Opened() ==> w.sink.Handed() == v.sink.Handed() + surplus)
            && (!v.sink.Opened() ==> w.sink.Handed() == if restart then [] else surplus)
  {
    hide QueueCapacity, DoAll, Session.Full;
    MovesKeepInv(v.sink, w2);
    if v.sink.Opened() {
      SendHands(DoAll(v.sink, w2), surplus, restart);
    } else {
      NewStaysNew(RECV_BUFFER_SIZE, w2);
      FreshFeeds(surplus, restart);
    }
  }

  /**
   The boundary is only respected by completions that stop at it: inside a download, a completion reaching it is
   answered once if it ends there, and twice if it goes on, the surplus then being fed to a session as data
   (behind the download, or alone after a failure, unless a restart is pending).  `w1` and `w2` are the
   background moves made while the feeds waited for room.
   */
  lemma OneReplyExactlyWithoutSurplus(u: Usb, chunk: Bytes, restart: bool, headerSent: bool, w1: seq<Move>, w2: seq<Move>)
    requires InDownload(u) && |chunk| >= u.Remaining()
    requires u.failReply.None? ==> !DoAll(u.sink, w1).Full()
    requires !DoAll(ToBoundary(u, chunk, restart, w1).sink, w2).Full()
    ensures var v, r := RxWaiting(u, chunk, restart, headerSent, w1, w2), u.Remaining();
            && (|v.out| == |u.out| + 1 <==> |chunk| == r)
            && (|v.out| == |u.out| + 2 <==> |chunk| > r)
            && v.commands == u.commands
            && (|chunk| > r ==>
                  v.sink.Handed() == if u.failReply.None? then u.sink.Handed() + chunk else if restart then [] else chunk[r..])
  {
    hide DownloadChunk, DoAll, ParseCommand, HandleCommand, Session.Full;
    var r := u.Remaining();
    BoundaryReply(u, chunk, restart, w1);
    assert |chunk| == r ==> chunk[..r] == chunk;
    if |chunk| > r {
      SurplusReply(ToBoundary(u, chunk, restart, w1), chunk[r..], restart, w2);
      assert u.sink.Handed() + chunk[..r] + chunk[r..] == u.sink.Handed() + chunk;
    }
  }

  lemma FreshFeeds(block: Bytes, restart: bool)
    ensures var (s, feed) := TrySend(New(RECV_BUFFER_SIZE), block, restart);
            if restart then feed.FeedError? && s.Handed() == [] else feed.FeedOk? && s.Handed() == block
  {
    CapacityAtLeastTwo(RECV_BUFFER_SIZE);
  }

  // --- Read sizes ----------------------------------------------------------------------

  lemma {:induction false} DivCeilMultiple(k: nat, d: nat)
    requires d > 0
    ensures DivCeil(k * d, d) == k
    decreases k
  {
    if k > 0 {
      assert k * d == (k - 1) * d + d;
      DivCeilMultiple(k - 1, d);
      if k == 1 { assert k * d == d; } else { assert (k - 1) * d > 0; }
    }
  }

  /** The packet size as the function uses it. */
  function PacketSize(mps: nat): (m: nat)
    ensures m > 0
  {
    if mps > 1 then mps else 1
  }

  /**
   A read for a command is a whole buffer of 16 KiB.  A read for data is a whole number of packets, covers what is
   asked for and exceeds it by less than a packet; it stays within the buffer whenever the packet size divides it.
   */
  lemma CapacityRounds(size: nat, done: nat, mps: nat)
    ensures done >= size ==> RecvCapacity(size, done, mps) == 16 * 1024
    ensures var r, m := Min(size - done, 16 * 1024), PacketSize(mps);
            var cap := RecvCapacity(size, done, mps);
            done < size ==>
              && r <= cap < r + m && (exists k: nat :: cap == k * m)
              && ((exists a: nat :: 16 * 1024 == a * m) ==> cap <= 16 * 1024)
  {
    if done < size {
      var r, m := Min(size - done, RECV_BUFFER_SIZE), PacketSize(mps);
      DivCeilBounds(r, m);
      var k := DivCeil(r, m);
      assert RecvCapacity(size, done, mps) == k * m;
      assert (k - 1) * m == k * m - m;
      if a: nat :| RECV_BUFFER_SIZE == a * m {
        if k > a { Scale(a + 1, k, m); }
        assert (a + 1) * m == a * m + m;
        Scale(k, a, m);
      }
    }
  }

  /** When the packet size divides both the buffer and what remains, the read ends exactly where it should. */
  lemma CapacityExact(size: nat, done: nat, mps: nat, a: nat, b: nat)
    requires done < size && RECV_BUFFER_SIZE == a * PacketSize(mps) && size - done == b * PacketSize(mps)
    ensures RecvCapacity(size, done, mps) == Min(size - done, RECV_BUFFER_SIZE)
  {
    DivCeilMultiple(a, PacketSize(mps));
    DivCeilMultiple(b, PacketSize(mps));
  }

  /** Capacities of successive full reads. */
  function FullReads(size: nat, done: nat, mps: nat): seq<nat>
    decreases if done < size then size - done else 0
  {
    if done >= size then []
    else
      CapacityRounds(size, done, mps);
      var cap := RecvCapacity(size, done, mps);
      [cap] + FullReads(size, done + cap, mps)
  }

  function Sum(xs: seq<nat>): nat { if xs == [] then 0 else xs[0] + Sum(xs[1..]) }

  /**
   If the packet size divides the buffer size and the download, full reads sum to exactly the download, each
   within the buffer: no completion crosses the boundary and no short packet is needed.
   */
  lemma {:induction false} FullReadsFit(size: nat, done: nat, mps: nat, a: nat, b: nat)
    requires RECV_BUFFER_SIZE == a * PacketSize(mps) && done <= size && size - done == b * PacketSize(mps)
    ensures done + Sum(FullReads(size, done, mps)) == size
    ensures forall i :: 0 <= i < |FullReads(size, done, mps)| ==> FullReads(size, done, mps)[i] <= RECV_BUFFER_SIZE
    decreases size - done
  {
    hide RecvCapacity;
    if done < size {
      CapacityRounds(size, done, mps);
      CapacityExact(size, done, mps, a, b);
      var cap := RecvCapacity(size, done, mps);
      var k := if b <= a then b else a;
      var m := PacketSize(mps);
      Scale(a, b, m);
      assert cap == k * m;
      assert (b - k) * m == b * m - k * m;
      FullReadsFit(size, done + cap, mps, a, b - k);
    }
  }

  lemma Scale(a: nat, b: nat, m: nat)
    ensures a <= b ==> a * m <= b * m
    ensures b <= a ==> b * m <= a * m
  {
  }
}
