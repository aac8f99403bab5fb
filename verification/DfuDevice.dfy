/** The DFU handler object, field by field as the daemon updates it. */
module DfuDevice {
  import opened ByteSeq
  import opened Swupdate
  import opened Dfu
  import SwupdateSession
  import Crc32

  class Device {
    const config: Config
    var tail: Bytes
    var crc: nat
    var sink: SwupdateSession.Sink
    var pending: Option<Bytes>
    var state: State
    var status: Status

    function View(): Handler
      reads this, sink
    {
      Handler(config, tail, crc, sink.View(), pending, state, status)
    }

    constructor (c: Config)
      ensures View() == Fresh(c) && fresh(sink)
    {
      config := c;
      tail, crc, pending, state, status := [], Crc32.INIT, None, DfuIdle, Ok;
      sink := new SwupdateSession.Sink(c.transferSize);
    }

    /** Replaces the session; the old one is told to finish what it has queued. */
    method AbortTransfer()
      modifies this, sink
      ensures View() == Fresh(config) && fresh(sink)
      ensures old(sink).View() == Swupdate.Abort(old(sink.View()))
    {
      sink.Abort();
      sink := new SwupdateSession.Sink(config.transferSize);
      pending, status, state := None, Ok, DfuIdle;
      tail, crc := [], Crc32.INIT;
    }

    method PushPending(restart: bool) returns (ok: bool)
      modifies this, sink
      ensures (View(), ok) == Dfu.PushPending(old(View()), restart)
      ensures sink == old(sink)
    {
      if pending.Some? {
        var chunk := pending.value;
        pending := None;
        var feed := sink.TrySend(chunk, restart);
        match feed
        case FeedFull(block) =>
          pending := Some(block);
          return true;
        case FeedError => return false;
        case _ =>
      }
      if state.Manifest? { sink.Eof(); }
      return true;
    }

    method Poll(restart: bool) returns (note: Note)
      modifies this, sink
      ensures (View(), note) == Dfu.Poll(old(View()), restart)
      ensures sink == old(sink) || fresh(sink)
    {
      var ok := PushPending(restart);
      if !ok { return Refused; }
      var manifesting := state.Manifest?;
      var open := sink.IsOpen();
      if !manifesting && !open { return Fine; }
      var result := sink.PollStatus();
      if result == Some(Failure) {
        crc, pending := Crc32.INIT, None;
        sink := new SwupdateSession.Sink(config.transferSize);
        status, state := ErrVerify, Error;
        return SwFailed;
      }
      if result == Some(Success) && manifesting {
        crc, pending := Crc32.INIT, None;
        sink := new SwupdateSession.Sink(config.transferSize);
        status, state := Ok, ManifestSync;
      }
      return Fine;
    }

    method SubmitChunk(chunk: Bytes, restart: bool) returns (note: Note)
      modifies this, sink
      ensures (View(), note) == Dfu.SubmitChunk(old(View()), chunk, restart)
      ensures sink == old(sink) || fresh(sink)
    {
      if pending.Some? {
        AbortTransfer();
        status, state := ErrStalledPkt, Error;
        return Violation;
      }
      pending := Some(chunk);
      var ok := PushPending(restart);
      return if ok then Fine else Refused;
    }

    /** A DNLOAD block: `data` arrives behind the carried-over tail while the background tasks move. */
    method ReceiveBlock(data: Bytes, meanwhile: seq<Move>, restart: bool) returns (note: Note)
      modifies this, sink
      ensures (View(), note) == Dfu.TakeBlock(During(old(View()), meanwhile), data, restart)
      ensures sink == old(sink) || fresh(sink)
    {
      hide Dfu.TakeBlock, DoAll;
      sink.Background(meanwhile);
      note := TakeBlock(data, restart);
    }

    /** What is done with a block once its data stage is over. */
    method TakeBlock(data: Bytes, restart: bool) returns (note: Note)
      modifies this, sink
      ensures (View(), note) == Dfu.TakeBlock(old(View()), data, restart)
      ensures sink == old(sink) || fresh(sink)
    {
      hide Dfu.SubmitChunk, Crc32.Update;
      var buf := tail + data;
      state, status := DnloadSync, Ok;
      if |buf| <= SUFFIX_LEN {
        tail := buf;
        return Fine;
      }
      var flush := |buf| - SUFFIX_LEN;
      tail := buf[flush..];
      crc := Crc32.Update(crc, buf[..flush]);
      note := SubmitChunk(buf[..flush], restart);
    }

    method StartManifest(restart: bool) returns (note: Note)
      modifies this, sink
      ensures (View(), note) == Dfu.StartManifest(old(View()), restart)
      ensures sink == old(sink) || fresh(sink)
    {
      status, state := Ok, Manifest;
      var taken := tail;
      tail := [];
      if taken == [] || HasValidSuffix(crc, taken) {
        var ok := PushPending(restart);
        return if ok then Fine else Refused;
      }
      note := SubmitChunk(taken, restart);
    }

    method GetStatus() returns (reply: Bytes)
      modifies this
      ensures View() == AdvanceForStatus(old(View())) && sink == old(sink)
      ensures reply == StatusReply(View())
    {
      match state {
        case DnloadSync => state := if pending.Some? then DnBusy else DnloadIdle;
        case DnBusy => state := if pending.Some? then DnBusy else DnloadIdle;
        case ManifestSync => state := DfuIdle;
        case _ =>
      }
      reply := StatusReply(View());
    }

    method ClearStatus()
      modifies this, sink
      ensures View() == Dfu.ClearStatus(old(View()))
      ensures sink == old(sink) || fresh(sink)
    {
      if state.Error? || IsFinishing(state) {
        AbortTransfer();
      } else {
        status, state := Ok, DfuIdle;
        tail, crc := [], Crc32.INIT;
      }
    }

    method Serve(req: Request, restart: bool) returns (note: Note, reply: Bytes)
      modifies this, sink
      ensures Out(View(), note, reply) == Dfu.Serve(old(View()), req, restart)
      ensures sink == old(sink) || fresh(sink)
    {
      note, reply := Fine, [];
      match req {
        case Dnload(data, ms) =>
          if IsFinishing(state) { note := Refused; } else { note := ReceiveBlock(data, ms, restart); }
        case DnloadLost(closed) =>
          if IsFinishing(state) || !closed { note := Refused; } else { AbortTransfer(); }
        case DnloadEmpty => note := StartManifest(restart);
        case Detach => state := AppDetach;
        case ClrStatus => ClearStatus();
        case Abort => AbortTransfer();
        case OtherOut =>
          status, state := ErrStalledPkt, Error;
          note := Refused;
        case GetStatus => reply := GetStatus();
        case GetState => reply := [StateCode(state)];
        case Upload(n) =>
          var out := UploadBlock(View(), n);
          state, note, reply := out.d.state, out.note, out.reply;
        case OtherIn =>
          status, state := ErrStalledPkt, Error;
          note := Refused;
        case Reset => AbortTransfer();
      }
    }

    /** One control request or transport event. */
    method HandleEvent(req: Request, restart: bool) returns (note: Note, reply: Bytes)
      modifies this, sink
      ensures Out(View(), note, reply) == Step(old(View()), req, restart)
      ensures sink == old(sink) || fresh(sink)
    {
      hide Dfu.Poll, Dfu.Serve;
      if req.Reset? {
        note, reply := Serve(req, restart);
        return;
      }
      var polled := Poll(restart);
      if polled.Refused? { return Refused, []; }
      note, reply := Serve(req, restart);
      if polled.SwFailed? { note := SwFailed; }
    }
  }
}
