/** What the DFU handler hands to SWUpdate, over every run. */
module DfuStream {
  import opened ByteSeq
  import opened Swupdate
  import opened Dfu
  import Crc32

  // --- Runs that only stream data -----------------------------------------

  predicate Streaming(req: Request) {
    req.Dnload? || req.GetStatus? || req.GetState? || req.Upload? || req.Detach?
  }

  /** A run before manifestation, abort, CLRSTATUS, SWUpdate failure or a refused request. */
  predicate CleanRun(d: Handler, inputs: seq<Input>)
    decreases |inputs|
  {
    inputs == [] ||
    var front, i := inputs[..|inputs| - 1], inputs[|inputs| - 1];
    && CleanRun(d, front)
    && (i.Req? ==> Streaming(i.req) && Take(Run(d, front), i).note.Fine?)
  }

  /**
   The bytes `p` of the current file, after `base` bytes left by earlier ones, are split in order between
   the session, the held block and the tail; the hash covers what precedes the tail.
   */
  ghost predicate StreamInv(d: Handler, base: Bytes, p: Bytes) {
    && SinkInv(d)
    && d.sink.Handed() + PendingBytes(d) + d.tail == base + p
    && |d.tail| == Min(SUFFIX_LEN, |p|)
    && d.crc == Crc32.Update(Crc32.INIT, p[..|p| - |d.tail|])
    && !IsFinishing(d.state)
    && (d.sink.Opened() && !d.sink.tx ==> d.sink.drain.Stopped?)
  }

  ghost predicate SinkInv(d: Handler) {
    && Inv(d.sink)
    && (!d.sink.Opened() ==> d.sink.drain.NotSpawned? && d.sink.Handed() == [])
    && (d.sink.discarded != [] ==> d.sink.drain.Stopped?)
  }

  /** The effect of one non-refused try at the queue, outside Manifest. */
  lemma PushKeepsStream(d: Handler, restart: bool)
    requires SinkInv(d) && !d.state.Manifest?
    requires d.sink.Opened() && !d.sink.tx ==> d.sink.drain.Stopped?
    requires PushPending(d, restart).1
    ensures var e := PushPending(d, restart).0;
            && SinkInv(e)
            && e == d.(sink := e.sink, pending := e.pending)
            && e.sink.Handed() + PendingBytes(e) == d.sink.Handed() + PendingBytes(d)
            && (e.sink.Opened() && !e.sink.tx ==> e.sink.drain.Stopped?)
            && (d.pending.None? ==> e.pending.None?)
  {
    hide StreamAccounted, QueueCapacity;
    if d.pending.Some? {
      SendKeepsInv(d.sink, d.pending.value, restart);
      var b := d.pending.value;
      if d.sink.discarded != [] { assert !d.sink.tx; }
      assert d.sink.discarded == [] ==> d.sink.fed + b + [] == d.sink.fed + [] + b;
      assert d.sink.fed + d.sink.discarded + b == d.sink.fed + (d.sink.discarded + b);
    }
  }

  lemma PollKeepsStream(d: Handler, base: Bytes, p: Bytes, restart: bool)
    requires StreamInv(d, base, p) && Poll(d, restart).1.Fine?
    ensures StreamInv(Poll(d, restart).0, base, p)
    ensures d.pending.None? ==> Poll(d, restart).0.pending.None?
  {
    hide Crc32.Update;
    PushKeepsStream(d, restart);
    var e := PushPending(d, restart).0;
    assert Inv(PollStatus(e.sink).0);
  }

  lemma SplitTail(base: Bytes, p: Bytes, front: Bytes, tail: Bytes)
    requires front + tail == base + p && |tail| <= |p|
    ensures p == p[..|p| - |tail|] + tail && base + p[..|p| - |tail|] == front
  {
    var n := |p| - |tail|;
    assert (front + tail)[..|base| + n] == (base + p)[..|base| + n] == base + p[..n];
    assert (front + tail)[|base| + n..] == (base + p)[|base| + n..] == p[n..];
  }

  /** A chunk cut off the front of the window goes to the session or becomes the held block. */
  lemma FlushKeepsStream(d: Handler, base: Bytes, p: Bytes, chunk: Bytes, tail: Bytes, restart: bool)
    requires StreamInv(d, base, p) && |tail| == SUFFIX_LEN && d.pending.None?
    requires PushPending(d.(state := DnloadSync, status := Ok, tail := tail,
                            crc := Crc32.Update(d.crc, chunk), pending := Some(chunk)), restart).1
    ensures StreamInv(PushPending(d.(state := DnloadSync, status := Ok, tail := tail,
                                     crc := Crc32.Update(d.crc, chunk), pending := Some(chunk)), restart).0,
                      base, p[..|p| - |d.tail|] + chunk + tail)
  {
    hide Crc32.Update, PushPending;
    var head := p[..|p| - |d.tail|];
    assert d.sink.Handed() + [] == d.sink.Handed();
    SplitTail(base, p, d.sink.Handed(), d.tail);
    Crc32.UpdateAppend(Crc32.INIT, head, chunk);
    var d1 := d.(state := DnloadSync, status := Ok, tail := tail,
                 crc := Crc32.Update(d.crc, chunk), pending := Some(chunk));
    PushKeepsStream(d1, restart);
    var q := head + chunk + tail;
    assert q[..|q| - SUFFIX_LEN] == head + chunk;
    assert base + head + chunk + tail == base + q;
  }

  /** A block that still fits the window only extends the tail. */
  lemma HoldKeepsStream(d: Handler, base: Bytes, p: Bytes, data: Bytes)
    requires StreamInv(d, base, p) && |d.tail + data| <= SUFFIX_LEN
    ensures StreamInv(d.(state := DnloadSync, status := Ok, tail := d.tail + data), base, p + data)
  {
    hide Crc32.Update;
    var front := d.sink.Handed() + PendingBytes(d);
    SplitTail(base, p, front, d.tail);
    assert front + d.tail + data == front + (d.tail + data);
    assert base + p + data == base + (p + data);
    assert (p + data)[..|p + data| - |d.tail + data|] == p[..|p| - |d.tail|];
    assert |data| > 0 ==> |d.tail| == |p|;
  }

  lemma TakeBlockKeepsStream(d: Handler, base: Bytes, p: Bytes, data: Bytes, restart: bool)
    requires StreamInv(d, base, p) && TakeBlock(d, data, restart).1.Fine?
    ensures StreamInv(TakeBlock(d, data, restart).0, base, p + data)
  {
    hide PushPending, Crc32.Update, StreamInv;
    var buf := d.tail + data;
    if |buf| <= SUFFIX_LEN {
      HoldKeepsStream(d, base, p, data);
    } else {
      var flush := |buf| - SUFFIX_LEN;
      TailIsWindow(d, base, p);
      FlushKeepsStream(d, base, p, buf[..flush], buf[flush..], restart);
      assert p[..|p| - |d.tail|] + buf[..flush] + buf[flush..] == p + data;
    }
  }

  lemma TailIsWindow(d: Handler, base: Bytes, p: Bytes)
    requires StreamInv(d, base, p)
    ensures |d.tail| <= |p| && p == p[..|p| - |d.tail|] + d.tail
  {
    SplitTail(base, p, d.sink.Handed() + PendingBytes(d), d.tail);
  }

  lemma ServeKeepsStream(d: Handler, base: Bytes, p: Bytes, req: Request, restart: bool)
    requires StreamInv(d, base, p) && Streaming(req) && Serve(d, req, restart).note.Fine?
    ensures StreamInv(Serve(d, req, restart).d, base, p + if req.Dnload? then req.data else [])
  {
    hide TakeBlock, Crc32.Update, DoAll;
    assert p + [] == p;
    if req.Dnload? {
      MovesKeepStream(d, base, p, req.meanwhile);
      TakeBlockKeepsStream(During(d, req.meanwhile), base, p, req.data, restart);
    }
  }

  lemma StepKeepsStream(d: Handler, base: Bytes, p: Bytes, req: Request, restart: bool)
    requires StreamInv(d, base, p) && Streaming(req) && Step(d, req, restart).note.Fine?
    ensures StreamInv(Step(d, req, restart).d, base, p + if req.Dnload? then req.data else [])
  {
    hide Serve, Poll, StreamInv;
    PollKeepsStream(d, base, p, restart);
    ServeKeepsStream(Poll(d, restart).0, base, p, req, restart);
  }

  lemma MoveKeepsStream(d: Handler, base: Bytes, p: Bytes, m: Move)
    requires StreamInv(d, base, p)
    ensures StreamInv(d.(sink := Do(d.sink, m)), base, p)
  {
    MoveKeepsInv(d.sink, m);
  }

  lemma {:induction false} MovesKeepStream(d: Handler, base: Bytes, p: Bytes, ms: seq<Move>)
    requires StreamInv(d, base, p)
    ensures StreamInv(During(d, ms), base, p)
    decreases |ms|
  {
    hide StreamInv, Do;
    if ms != [] {
      MoveKeepsStream(d, base, p, ms[0]);
      MovesKeepStream(d.(sink := Do(d.sink, ms[0])), base, p, ms[1..]);
    }
  }

  lemma TakeKeepsStream(d: Handler, base: Bytes, p: Bytes, i: Input)
    requires StreamInv(d, base, p) && (i.Req? ==> Streaming(i.req) && Take(d, i).note.Fine?)
    ensures StreamInv(Take(d, i).d, base, p + if i.Req? && i.req.Dnload? then i.req.data else [])
  {
    hide StreamInv, Step, Do;
    assert p + [] == p;
    match i
    case Env(m) => MoveKeepsStream(d, base, p, m);
    case Req(req, restart) => StepKeepsStream(d, base, p, req, restart);
  }

  lemma {:induction false} CleanRunFrom(d: Handler, base: Bytes, p: Bytes, inputs: seq<Input>)
    requires StreamInv(d, base, p) && CleanRun(d, inputs)
    ensures StreamInv(Run(d, inputs), base, p + Payload(inputs))
    decreases |inputs|
  {
    hide Take, StreamInv, Streaming;
    if inputs == [] {
      assert p + [] == p;
    } else {
      var front, i := inputs[..|inputs| - 1], inputs[|inputs| - 1];
      CleanRunFrom(d, base, p, front);
      TakeKeepsStream(Run(d, front), base, p + Payload(front), i);
      var piece: Bytes := if i.Req? && i.req.Dnload? then i.req.data else [];
      assert p + Payload(front) + piece == p + (Payload(front) + piece);
    }
  }

  /**
   Main streaming result.  In every clean run, the blocks handed to the session, the held block and the
   tail are, in order, exactly the bytes received; the tail is the last min(16, n) of them.
   */
  lemma CleanRunStreams(c: Config, inputs: seq<Input>)
    requires CleanRun(Fresh(c), inputs)
    ensures var d, p := Run(Fresh(c), inputs), Payload(inputs);
            && d.sink.Handed() + PendingBytes(d) + d.tail == p
            && d.tail == p[|p| - Min(16, |p|)..]
            && StreamInv(d, [], p)
  {
    hide StreamInv, Run, CleanRun, Payload;
    FreshStreams(c);
    CleanRunFrom(Fresh(c), [], [], inputs);
    var d, p := Run(Fresh(c), inputs), Payload(inputs);
    assert [] + p == p;
    StreamBytes(d, p);
  }

  lemma FreshStreams(c: Config)
    ensures StreamInv(Fresh(c), [], [])
  {
    hide Crc32.UpdateBits, Crc32.INIT;
  }

  lemma StreamBytes(d: Handler, p: Bytes)
    requires StreamInv(d, [], p)
    ensures d.sink.Handed() + PendingBytes(d) + d.tail == p
    ensures d.tail == p[|p| - Min(SUFFIX_LEN, |p|)..]
  {
    hide Crc32.Update, Inv;
    assert [] + p == p;
  }

  // --- Manifestation -------------------------------------------------------

  /** A file carries a DFU suffix: signature, length byte, and a CRC over the whole file but its last four bytes. */
  predicate FileHasSuffix(p: Bytes)
    ensures FileHasSuffix(p) ==> |p| >= 16
  {
    && |p| >= 16
    && p[|p| - 8..|p| - 5] == [0x55, 0x46, 0x44]
    && p[|p| - 5] == 16
    && Crc32.Not(Crc32.Finalize(Crc32.Update(Crc32.INIT, p[..|p| - 4]))) == LeValue(p[|p| - 4..])
  }

  /** What SWUpdate must receive for the file `p`. */
  function Firmware(p: Bytes): Bytes {
    if FileHasSuffix(p) then p[..|p| - 16] else p
  }

  /** The check on the rolling hash and the withheld tail is the check on the whole file. */
  lemma SuffixCheckIsGlobal(p: Bytes, tail: Bytes)
    requires |tail| == Min(SUFFIX_LEN, |p|) && p[|p| - |tail|..] == tail
    ensures HasValidSuffix(Crc32.Update(Crc32.INIT, p[..|p| - |tail|]), tail) <==> FileHasSuffix(p)
  {
    if |p| >= SUFFIX_LEN {
      var head := p[..|p| - SUFFIX_LEN];
      assert tail[8..11] == p[|p| - 8..|p| - 5];
      assert tail[12..] == p[|p| - 4..];
      assert head + tail[..12] == p[..|p| - 4];
      Crc32.UpdateAppend(Crc32.INIT, head, tail[..12]);
    }
  }

  /** In Manifest, session and held block together are the firmware, and the queue is closed exactly when nothing is held. */
  ghost predicate ManifestInv(d: Handler, firmware: Bytes) {
    && SinkInv(d)
    && d.tail == []
    && d.sink.Handed() + PendingBytes(d) == firmware
    && (d.pending.None? <==> !d.sink.tx)
  }

  lemma PushInManifest(d: Handler, restart: bool)
    requires SinkInv(d) && d.state.Manifest? && d.tail == []
    requires d.pending.Some? && d.sink.Opened() && !d.sink.tx ==> d.sink.drain.Stopped?
    requires PushPending(d, restart).1
    ensures PushPending(d, restart).0.state == Manifest
    ensures ManifestInv(PushPending(d, restart).0, d.sink.Handed() + PendingBytes(d))
  {
    hide StreamAccounted, QueueCapacity;
    ApplyKeepsInv(d.sink, OpEof);
    if d.pending.Some? {
      SendKeepsInv(d.sink, d.pending.value, restart);
      ApplyKeepsInv(TrySend(d.sink, d.pending.value, restart).0, OpEof);
      var b := d.pending.value;
      if d.sink.discarded != [] { assert !d.sink.tx; }
      assert d.sink.discarded == [] ==> d.sink.fed + b + [] == d.sink.fed + [] + b;
      assert d.sink.fed + d.sink.discarded + b == d.sink.fed + (d.sink.discarded + b);
    }
  }

  /** The zero-length DNLOAD ending a clean run. */
  lemma ManifestStarts(d: Handler, p: Bytes, restart: bool)
    requires StreamInv(d, [], p)
    requires Step(d, DnloadEmpty, restart).note.Fine?
    ensures var e := Step(d, DnloadEmpty, restart).d; e.state.Manifest? && ManifestInv(e, Firmware(p))
  {
    hide Poll, StartManifest, StreamInv, ManifestInv, FileHasSuffix;
    PollKeepsStream(d, [], p, restart);
    ManifestStartsFrom(Poll(d, restart).0, p, restart);
  }

  lemma ManifestStartsFrom(a: Handler, p: Bytes, restart: bool)
    requires StreamInv(a, [], p) && StartManifest(a, restart).1.Fine?
    ensures var e := StartManifest(a, restart).0; e.state.Manifest? && ManifestInv(e, Firmware(p))
  {
    hide PushPending, HasValidSuffix, FileHasSuffix, Crc32.Update;
    assert [] + p == p;
    assert p[|p| - |a.tail|..] == a.tail && p[..|p| - |a.tail|] == a.sink.Handed() + PendingBytes(a);
    SuffixCheckIsGlobal(p, a.tail);
    var b := a.(state := Manifest, status := Ok, tail := []);
    if a.tail == [] || HasValidSuffix(a.crc, a.tail) {
      PushInManifest(b, restart);
    } else {
      assert a.sink.Handed() + [] == a.sink.Handed();
      PushInManifest(b.(pending := Some(a.tail)), restart);
    }
  }

  lemma PollInManifest(d: Handler, firmware: Bytes, restart: bool)
    requires d.state.Manifest? && ManifestInv(d, firmware)
    ensures var (e, note) := Poll(d, restart);
            !note.Refused? && (e.state.Manifest? ==> ManifestInv(e, firmware))
  {
    hide PushPending, Concat;
    PushNotRefused(d, restart);
    PushInManifest(d, restart);
    PollStatusKeeps(PushPending(d, restart).0.sink);
  }

  lemma PushNotRefused(d: Handler, restart: bool)
    requires ManifestInv(d, d.sink.Handed() + PendingBytes(d))
    ensures PushPending(d, restart).1
  {
    hide Concat;
  }

  lemma PollStatusKeeps(s: Session)
    requires Inv(s)
    ensures var r := PollStatus(s).0;
            && Inv(r) && r.tx == s.tx && r.drain == s.drain && r.fed == s.fed && r.discarded == s.discarded
            && r.Opened() == s.Opened()
  {
  }

  /** Only a zero-length DNLOAD enters Manifest. */
  lemma ServeNotManifest(d: Handler, req: Request, restart: bool)
    requires !d.state.Manifest? && !req.DnloadEmpty?
    ensures !Serve(d, req, restart).d.state.Manifest?
  {
    hide TrySend, DoAll;
  }

  lemma ServeInManifest(d: Handler, firmware: Bytes, req: Request, restart: bool)
    requires d.state.Manifest? && ManifestInv(d, firmware)
    ensures var e := Serve(d, req, restart).d; e.state.Manifest? ==> ManifestInv(e, firmware)
  {
    hide TakeBlock, PushPending, Concat, Crc32.Update, DoAll, HasValidSuffix;
    if req.DnloadEmpty? {
      var m := d.(status := Ok);
      PushNotRefused(m, restart);
      PushInManifest(m, restart);
    }
  }

  /** SWUpdate has a transfer and has not given its verdict. */
  predicate Undecided(s: Session) { s.Opened() && s.terminal.None? && s.outcome.None? }

  /** A poll in Manifest leaves it exactly when the verdict is there. */
  lemma PollStaysExactly(d: Handler, firmware: Bytes, restart: bool)
    requires d.state.Manifest? && ManifestInv(d, firmware)
    ensures Poll(d, restart).0.state.Manifest? <==> Undecided(d.sink)
  {
    hide PushPending, Concat;
    PushNotRefused(d, restart);
    PushKeepsVerdict(d, firmware, restart);
    var v := PollStatus(PushPending(d, restart).0.sink).1;
    if v.Some? { assert v.value.Success? || v.value.Failure?; }
  }

  lemma PushKeepsVerdict(d: Handler, firmware: Bytes, restart: bool)
    requires d.state.Manifest? && ManifestInv(d, firmware)
    ensures var e := PushPending(d, restart).0;
            e.state == d.state && e.sink.status == d.sink.status && e.sink.terminal == d.sink.terminal
            && e.sink.outcome == d.sink.outcome
  {
    hide Concat, QueueCapacity;
  }

  /** A zero-length DNLOAD sent again comes before the verdict. */
  predicate EndsAgain(d: Handler, i: Input) { i.Req? && i.req.DnloadEmpty? ==> Undecided(d.sink) }

  lemma WaitKeepsManifest(d: Handler, firmware: Bytes, i: Input)
    requires d.state.Manifest? && ManifestInv(d, firmware) && EndsAgain(d, i)
    ensures var e := Take(d, i).d; e.state.Manifest? ==> ManifestInv(e, firmware)
  {
    hide Poll, Serve, ManifestInv;
    match i
    case Env(m) => MoveInManifest(d, firmware, m);
    case Req(req, restart) =>
      if !req.Reset? {
        var a := Poll(d, restart).0;
        PollInManifest(d, firmware, restart);
        PollStaysExactly(d, firmware, restart);
        if a.state.Manifest? { ServeInManifest(a, firmware, req, restart); } else { ServeNotManifest(a, req, restart); }
      } else {
        ServeInManifest(d, firmware, req, restart);
      }
  }

  lemma MoveInManifest(d: Handler, firmware: Bytes, m: Move)
    requires ManifestInv(d, firmware)
    ensures ManifestInv(d.(sink := Do(d.sink, m)), firmware)
  {
    MoveKeepsInv(d.sink, m);
  }

  /**
   The wait for the verdict: any requests at all, for as long as the handler stays in Manifest.  A repeated
   zero-length DNLOAD belongs to it when it comes before the verdict.
   */
  predicate KeepsWaiting(d: Handler, inputs: seq<Input>)
    decreases |inputs|
  {
    inputs == [] ||
    var front, i := inputs[..|inputs| - 1], inputs[|inputs| - 1];
    KeepsWaiting(d, front) && Run(d, front).state.Manifest? && EndsAgain(Run(d, front), i)
  }

  lemma {:induction false} WaitingRun(d: Handler, firmware: Bytes, inputs: seq<Input>)
    requires d.state.Manifest? && ManifestInv(d, firmware) && KeepsWaiting(d, inputs)
    ensures var e := Run(d, inputs); e.state.Manifest? ==> ManifestInv(e, firmware)
    decreases |inputs|
  {
    hide Take, ManifestInv, EndsAgain;
    if inputs != [] {
      var front := inputs[..|inputs| - 1];
      WaitingRun(d, firmware, front);
      WaitKeepsManifest(Run(d, front), firmware, inputs[|inputs| - 1]);
    }
  }

  /** The handler after a clean run, the zero-length DNLOAD and a wait. */
  function AfterWait(c: Config, inputs: seq<Input>, restart: bool, wait: seq<Input>): Handler {
    Run(Step(Run(Fresh(c), inputs), DnloadEmpty, restart).d, wait)
  }

  /** A clean run, an accepted zero-length DNLOAD and a wait. */
  predicate Manifested(c: Config, inputs: seq<Input>, restart: bool, wait: seq<Input>) {
    && CleanRun(Fresh(c), inputs)
    && Step(Run(Fresh(c), inputs), DnloadEmpty, restart).note.Fine?
    && KeepsWaiting(Step(Run(Fresh(c), inputs), DnloadEmpty, restart).d, wait)
  }

  /**
   Main manifestation result.  After any clean run ended by an accepted zero-length DNLOAD, and any wait
   after it, as long as the handler is still in Manifest: end of stream has been signalled exactly when no
   block is held, the session has then been handed the firmware of the payload, and if the writer was shut
   down the backend holds exactly those bytes.
   */
  lemma ManifestDelivers(c: Config, inputs: seq<Input>, restart: bool, wait: seq<Input>)
    ensures var e := AfterWait(c, inputs, restart, wait);
            Manifested(c, inputs, restart, wait) && e.state.Manifest? ==>
              && (!e.sink.tx <==> e.pending.None?)
              && e.sink.Handed() + PendingBytes(e) == Firmware(Payload(inputs))
              && (!e.sink.tx ==> e.sink.Handed() == Firmware(Payload(inputs)))
              && (e.sink.drain.ShutDown? ==> e.sink.written == Firmware(Payload(inputs)))
  {
    hide Run, Step, CleanRun, Payload, FileHasSuffix, KeepsWaiting;
    var e := AfterWait(c, inputs, restart, wait);
    if Manifested(c, inputs, restart, wait) && e.state.Manifest? {
      ManifestHolds(c, inputs, restart, wait);
      assert e.sink.Handed() + [] == e.sink.Handed();
      if e.sink.drain.ShutDown? {
        assert e.sink.discarded == [] && e.sink.written == e.sink.fed;
        assert e.sink.fed + [] == e.sink.fed;
      }
    }
  }

  lemma ManifestHolds(c: Config, inputs: seq<Input>, restart: bool, wait: seq<Input>)
    requires Manifested(c, inputs, restart, wait)
    ensures AfterWait(c, inputs, restart, wait).state.Manifest? ==>
              ManifestInv(AfterWait(c, inputs, restart, wait), Firmware(Payload(inputs)))
  {
    hide Run, Step, CleanRun, Payload, FileHasSuffix, KeepsWaiting, StreamInv, ManifestInv;
    CleanRunStreams(c, inputs);
    ManifestStarts(Run(Fresh(c), inputs), Payload(inputs), restart);
    WaitingRun(Step(Run(Fresh(c), inputs), DnloadEmpty, restart).d, Firmware(Payload(inputs)), wait);
  }

  /** A clean run, an accepted zero-length DNLOAD and a wait, at the end of which end of stream has been signalled. */
  predicate SignalsEnd(c: Config, inputs: seq<Input>, restart: bool, wait: seq<Input>) {
    && Manifested(c, inputs, restart, wait)
    && AfterWait(c, inputs, restart, wait).state.Manifest?
    && !AfterWait(c, inputs, restart, wait).sink.tx
  }

  /** How the host split the file into blocks does not matter. */
  lemma SplitDoesNotMatter(c: Config, xs: seq<Input>, rx: bool, wx: seq<Input>, ys: seq<Input>, ry: bool, wy: seq<Input>)
    ensures SignalsEnd(c, xs, rx, wx) && SignalsEnd(c, ys, ry, wy) && Payload(xs) == Payload(ys) ==>
              AfterWait(c, xs, rx, wx).sink.Handed() == AfterWait(c, ys, ry, wy).sink.Handed()
  {
    hide Manifested, AfterWait, Payload, FileHasSuffix;
    if SignalsEnd(c, xs, rx, wx) && SignalsEnd(c, ys, ry, wy) {
      ManifestDelivers(c, xs, rx, wx);
      ManifestDelivers(c, ys, ry, wy);
    }
  }
}
