/** What a SWUpdate failure leaves behind, and for whom. */
module DfuFailure {
  import opened ByteSeq
  import opened Swupdate
  import opened Dfu
  import opened DfuStream
  import opened DfuSafety
  import Crc32

  /** Every byte on its way to SWUpdate or withheld, in order. */
  function StreamOf(d: Handler): Bytes { d.sink.Handed() + PendingBytes(d) + d.tail }

  /** The handler once the failure of `d` has been found: the session is replaced, the tail is not. */
  function Reported(d: Handler): Handler {
    Fresh(d.config).(tail := d.tail, state := Error, status := ErrVerify)
  }

  lemma FailedPoll(d: Handler, restart: bool)
    requires Poll(d, restart).1.SwFailed?
    ensures Poll(d, restart).0 == Reported(d)
  {
  }

  /** In every reachable state at most 16 bytes are withheld, and none once manifestation has begun. */
  predicate Withholds(d: Handler) { |d.tail| <= SUFFIX_LEN && (d.state.Manifest? ==> d.tail == []) }

  lemma PollWithholds(d: Handler, restart: bool)
    requires Withholds(d)
    ensures Withholds(Poll(d, restart).0)
  {
    hide TrySend;
  }

  lemma ServeWithholds(d: Handler, req: Request, restart: bool)
    requires Withholds(d)
    ensures Withholds(Serve(d, req, restart).d)
  {
    hide TrySend, HasValidSuffix, StatusReply, Crc32.Update, DoAll;
  }

  lemma {:induction false} RunWithholds(c: Config, inputs: seq<Input>)
    ensures Withholds(Run(Fresh(c), inputs))
    decreases |inputs|
  {
    hide Poll, Serve;
    if inputs != [] {
      var front, i := inputs[..|inputs| - 1], inputs[|inputs| - 1];
      RunWithholds(c, front);
      var d := Run(Fresh(c), front);
      if i.Req? {
        ServeWithholds(d, i.req, i.restart);
        PollWithholds(d, i.restart);
        ServeWithholds(Poll(d, i.restart).0, i.req, i.restart);
      }
    }
  }

  // --- From the report to the host's next move -------------------------------

  /** `x` is the reported handler, up to what the host is told. */
  predicate AfterReport(d: Handler, x: Handler) {
    x == Reported(d).(state := x.state, status := x.status) && !IsFinishing(x.state)
  }

  lemma ReportPoll(d: Handler, x: Handler, restart: bool)
    requires AfterReport(d, x)
    ensures Poll(x, restart) == (x, Fine)
  {
  }

  /** After the failure the handler looks like one that has received just the old tail. */
  lemma ReportStream(d: Handler, x: Handler)
    requires AfterReport(d, x) && |d.tail| <= SUFFIX_LEN
    ensures StreamInv(x, [], d.tail)
  {
    HashOfNothing();
    assert d.tail[..0] == [] && [] + d.tail == d.tail;
  }

  /** A host that asks for anything but a transfer, and the world around it. */
  predicate Watches(i: Input) {
    || i.Env? || i.req.GetStatus? || i.req.GetState? || i.req.Upload? || i.req.Detach?
    || i.req.OtherIn? || i.req.OtherOut? || i.req == DnloadLost(false)
  }

  /** The first of `inputs` is a request, and its poll finds the failure. */
  predicate FindsFailure(d: Handler, inputs: seq<Input>) {
    && inputs != [] && inputs[0].Req? && !inputs[0].req.Reset?
    && Poll(d, inputs[0].restart).1.SwFailed?
  }

  lemma ServeWatches(d: Handler, x: Handler, i: Input)
    requires AfterReport(d, x) && i.Req? && Watches(i)
    ensures AfterReport(d, Serve(x, i.req, i.restart).d)
  {
    hide StatusReply;
  }

  lemma WatchingKeepsReport(d: Handler, x: Handler, i: Input)
    requires AfterReport(d, x) && Watches(i)
    ensures AfterReport(d, Take(x, i).d)
  {
    hide Poll, Serve;
    if i.Req? {
      ReportPoll(d, x, i.restart);
      ServeWatches(d, x, i);
    }
  }

  lemma {:induction false} WatchedReport(d: Handler, looks: seq<Input>)
    requires FindsFailure(d, looks) && forall i :: i in looks ==> Watches(i)
    ensures AfterReport(d, Run(d, looks))
    decreases |looks|
  {
    hide Poll, Serve, AfterReport;
    var front, i := looks[..|looks| - 1], looks[|looks| - 1];
    if front == [] {
      assert i == looks[0] && i in looks && Run(d, front) == d;
      FailedPoll(d, i.restart);
      ReportIsAfter(d);
      ServeWatches(d, Reported(d), i);
      assert Step(d, i.req, i.restart).d == Serve(Reported(d), i.req, i.restart).d;
    } else {
      assert forall j :: j in front ==> j in looks;
      WatchedReport(d, front);
      WatchingKeepsReport(d, Run(d, front), i);
    }
  }

  lemma ReportIsAfter(d: Handler)
    ensures AfterReport(d, Reported(d))
  {
  }

  /** The handler that the host's next move meets. */
  function Facing(d: Handler, looks: seq<Input>): Handler { if looks == [] then Reported(d) else Run(d, looks) }

  lemma NextMove(d: Handler, looks: seq<Input>, next: Request, restart: bool)
    requires FindsFailure(d, looks + [Req(next, restart)]) && forall i :: i in looks ==> Watches(i)
    ensures AfterReport(d, Facing(d, looks))
    ensures Run(d, looks + [Req(next, restart)]) == Serve(Facing(d, looks), next, restart).d
  {
    hide Poll, Serve, Run, CleanRun, Payload, AfterReport;
    var all := looks + [Req(next, restart)];
    RunSnoc(d, looks, Req(next, restart));
    if looks == [] {
      RunNothing(d);
      FailedPoll(d, restart);
      ReportIsAfter(d);
    } else {
      assert looks[0] == all[0];
      WatchedReport(d, looks);
      ReportPoll(d, Run(d, looks), restart);
    }
  }

  // --- Isolation ---------------------------------------------------------------

  /** Moves that end the failed transfer for good. */
  predicate Clears(req: Request) {
    req.ClrStatus? || req.Abort? || req.Reset? || req == DnloadLost(true)
  }

  function Carried(req: Request): Bytes { if req.Dnload? then req.data else [] }

  /** A block that needs a session is refused while a restart is pending. */
  predicate Accepted(d: Handler, next: Request, restart: bool) {
    next.Dnload? ==> !restart || |d.tail| + |next.data| <= SUFFIX_LEN
  }

  /** From `b` on, which has received `data` of the new file, the stream is that file and nothing else. */
  ghost predicate Isolated(b: Handler, data: Bytes) {
    forall after :: CleanRun(b, after) ==> StreamOf(Run(b, after)) == data + Payload(after)
  }

  lemma BlockIsAccepted(d: Handler, x: Handler, next: Request, restart: bool)
    requires AfterReport(d, x) && next.Dnload? && Accepted(d, next, restart)
    ensures Serve(x, next, restart).note.Fine?
  {
    hide Crc32.Update, QueueCapacity, DoAll;
    NewStaysNew(d.config.transferSize, next.meanwhile);
    CapacityAtLeastTwo(d.config.transferSize);
  }

  lemma OtherMovesKeepTail(d: Handler, x: Handler, next: Request, restart: bool)
    requires AfterReport(d, x) && |d.tail| <= SUFFIX_LEN && !Clears(next) && !next.DnloadEmpty? && Accepted(d, next, restart)
    ensures StreamInv(Serve(x, next, restart).d, [], d.tail + Carried(next))
  {
    hide TakeBlock, Crc32.Update, DoAll;
    ReportStream(d, x);
    assert d.tail + [] == d.tail;
    if next.Dnload? { BlockIsAccepted(d, x, next, restart); }
    if Streaming(next) && Serve(x, next, restart).note.Fine? {
      ServeKeepsStream(x, [], d.tail, next, restart);
    }
  }

  lemma ClearingIsFresh(d: Handler, x: Handler, next: Request, restart: bool)
    requires AfterReport(d, x) && Clears(next)
    ensures Serve(x, next, restart).d == Fresh(d.config)
  {
  }

  lemma StreamFrom(b: Handler, p: Bytes, after: seq<Input>)
    requires StreamInv(b, [], p) && CleanRun(b, after)
    ensures StreamOf(Run(b, after)) == p + Payload(after)
  {
    hide StreamInv, Run, CleanRun, Payload;
    CleanRunFrom(b, [], p, after);
    StreamBytes(Run(b, after), p + Payload(after));
  }

  /** What the stream becomes after the host's next move, for every clean run from there. */
  lemma StreamAfterFailure(d: Handler, x: Handler, next: Request, restart: bool, after: seq<Input>)
    requires AfterReport(d, x) && |d.tail| <= SUFFIX_LEN && !next.DnloadEmpty? && Accepted(d, next, restart)
    requires CleanRun(Serve(x, next, restart).d, after)
    ensures StreamOf(Run(Serve(x, next, restart).d, after)) ==
            (if Clears(next) then [] else d.tail) + (Carried(next) + Payload(after))
  {
    hide Serve, StreamInv, Run, CleanRun, Payload, AfterReport, StreamOf;
    var b := Serve(x, next, restart).d;
    if Clears(next) {
      ClearingIsFresh(d, x, next, restart);
      FreshStreams(d.config);
      StreamFrom(b, [], after);
      assert [] + ([] + Payload(after)) == [] + Payload(after);
    } else {
      OtherMovesKeepTail(d, x, next, restart);
      StreamFrom(b, d.tail + Carried(next), after);
      assert d.tail + Carried(next) + Payload(after) == d.tail + (Carried(next) + Payload(after));
    }
  }

  /**
   A SWUpdate failure does not isolate the next file by itself.  After any run at all, once the failure was
   found, by whatever request and whatever the host asked for since, the next file is free of old bytes if and
   only if the host's next move is CLRSTATUS, ABORT or a reset, or no bytes were withheld (nothing had been
   received, or manifestation had begun).
   */
  lemma FailureIsolatesExactly(c: Config, before: seq<Input>, looks: seq<Input>, next: Request, restart: bool)
    requires FindsFailure(Run(Fresh(c), before), looks + [Req(next, restart)]) && forall i :: i in looks ==> Watches(i)
    requires !next.DnloadEmpty? && Accepted(Run(Fresh(c), before), next, restart)
    ensures var d := Run(Fresh(c), before);
            && (Isolated(Run(d, looks + [Req(next, restart)]), Carried(next)) <==> Clears(next) || d.tail == [])
            && (d.state.Manifest? ==> d.tail == [])
  {
    hide Serve, Run, CleanRun, Payload, StreamOf, AfterReport, FindsFailure;
    var d := Run(Fresh(c), before);
    RunWithholds(c, before);
    NextMove(d, looks, next, restart);
    var x := Facing(d, looks);
    var b, data := Serve(x, next, restart).d, Carried(next);
    forall after | CleanRun(b, after)
      ensures StreamOf(Run(b, after)) == (if Clears(next) then [] else d.tail) + (data + Payload(after))
    {
      StreamAfterFailure(d, x, next, restart, after);
    }
    if Clears(next) || d.tail == [] {
      forall after | CleanRun(b, after) ensures StreamOf(Run(b, after)) == data + Payload(after) {
        assert [] + (data + Payload(after)) == data + Payload(after);
      }
    } else {
      CleanNothing(b);
      assert |d.tail + (data + Payload([]))| > |data + Payload([])|;
    }
  }

  lemma CleanNothing(b: Handler)
    ensures CleanRun(b, []) && Payload([]) == []
  {
  }

  /**
   If the next move is the zero-length DNLOAD instead, the withheld tail alone is manifested as firmware by a new
   session, under status OK.  It is accepted unless a restart is pending, and goes out exactly when something
   was withheld that is not a DFU suffix by itself.
   */
  lemma FailureManifestsOldTail(c: Config, before: seq<Input>, looks: seq<Input>, restart: bool)
    requires FindsFailure(Run(Fresh(c), before), looks + [Req(DnloadEmpty, restart)]) && forall i :: i in looks ==> Watches(i)
    ensures var d := Run(Fresh(c), before);
            var b := Run(d, looks + [Req(DnloadEmpty, restart)]);
            && b.state.Manifest? && b.status.Ok?
            && (!restart ==> ManifestInv(b, Firmware(d.tail)) && b.sink.Handed() + PendingBytes(b) == Firmware(d.tail))
            && (Firmware(d.tail) == [] <==> d.tail == [] || FileHasSuffix(d.tail))
  {
    hide StreamInv, FileHasSuffix, Run, AfterReport, FindsFailure;
    var d := Run(Fresh(c), before);
    RunWithholds(c, before);
    NextMove(d, looks, DnloadEmpty, restart);
    var x := Facing(d, looks);
    EndAfterFailure(d, x, restart);
    ReportStream(d, x);
    if !restart { ManifestStartsFrom(x, d.tail, restart); }
    if FileHasSuffix(d.tail) { assert d.tail[..|d.tail| - SUFFIX_LEN] == []; }
  }

  lemma EndAfterFailure(d: Handler, x: Handler, restart: bool)
    requires AfterReport(d, x)
    ensures var (b, note) := StartManifest(x, restart);
            b.state.Manifest? && b.status.Ok? && (!restart ==> note.Fine?)
  {
    hide HasValidSuffix, QueueCapacity;
    CapacityAtLeastTwo(d.config.transferSize);
  }

  // --- Requests that are refused ----------------------------------------------------

  /**
   A refused request reports an error but ends nothing: the next DNLOAD overwrites the error and the two files
   become one.  They are kept apart if and only if the first is empty.
   */
  lemma RefusalJoinsFiles(c: Config, before: seq<Input>, req: Request, restart: bool)
    requires CleanRun(Fresh(c), before) && Poll(Run(Fresh(c), before), restart).1.Fine?
    requires req.OtherOut? || req.OtherIn? || req == DnloadLost(false)
    ensures var out := Step(Run(Fresh(c), before), req, restart);
            && out.note.Refused?
            && (forall after :: CleanRun(out.d, after) ==> StreamOf(Run(out.d, after)) == Payload(before) + Payload(after))
            && (Isolated(out.d, []) <==> Payload(before) == [])
  {
    hide Poll, Run, CleanRun, Payload, StreamOf, StreamInv;
    var d, p := Run(Fresh(c), before), Payload(before);
    CleanRunStreams(c, before);
    PollKeepsStream(d, [], p, restart);
    RefusalKeepsStream(Poll(d, restart).0, p, req, restart);
    var b := Step(d, req, restart).d;
    forall after | CleanRun(b, after) ensures StreamOf(Run(b, after)) == p + Payload(after) { StreamFrom(b, p, after); }
    if p == [] {
      assert forall after :: CleanRun(b, after) ==> StreamOf(Run(b, after)) == [] + Payload(after);
    } else {
      CleanNothing(b);
      assert |p + Payload([])| > |[] + Payload([])|;
    }
  }

  lemma RefusalKeepsStream(a: Handler, p: Bytes, req: Request, restart: bool)
    requires StreamInv(a, [], p) && (req.OtherOut? || req.OtherIn? || req == DnloadLost(false))
    ensures StreamInv(Serve(a, req, restart).d, [], p) && Serve(a, req, restart).note.Refused?
  {
    hide Crc32.Update;
  }

  // --- Concrete runs -------------------------------------------------------------

  lemma RunSnoc(d: Handler, xs: seq<Input>, i: Input)
    ensures Run(d, xs + [i]) == Take(Run(d, xs), i).d
    ensures Payload(xs + [i]) == Payload(xs) + if i.Req? then Carried(i.req) else []
    ensures CleanRun(d, xs) && (i.Req? ==> Streaming(i.req) && Take(Run(d, xs), i).note.Fine?) ==> CleanRun(d, xs + [i])
  {
    hide Take;
    assert (xs + [i])[..|xs + [i]| - 1] == xs;
    assert Payload(xs) + [] == Payload(xs);
  }

  /** The handler after one block of more than 16 bytes. */
  function Started(c: Config, data: Bytes): Handler
    requires |data| > SUFFIX_LEN
  {
    var n := |data| - SUFFIX_LEN;
    Fresh(c).(state := DnloadSync, tail := data[n..], crc := Crc32.Update(Crc32.INIT, data[..n]),
              sink := New(c.transferSize).(tx := true, status := true, drain := Connecting, queue := [data[..n]], fed := data[..n]))
  }

  lemma FirstBlock(c: Config, data: Bytes)
    requires |data| > SUFFIX_LEN
    ensures Step(Fresh(c), Dnload(data, []), false) == Out(Started(c, data), Fine, [])
    ensures CleanRun(Fresh(c), [Req(Dnload(data, []), false)])
    ensures Run(Fresh(c), [Req(Dnload(data, []), false)]) == Started(c, data)
    ensures Payload([Req(Dnload(data, []), false)]) == data
  {
    hide Step, Started;
    FirstStep(c, data);
    var i := Req(Dnload(data, []), false);
    RunSnoc(Fresh(c), [], i);
    assert [] + [i] == [i] && [] + data == data;
  }

  lemma FirstStep(c: Config, data: Bytes)
    requires |data| > SUFFIX_LEN
    ensures Step(Fresh(c), Dnload(data, []), false) == Out(Started(c, data), Fine, [])
  {
    hide Crc32.Update, TrySend, Poll, HasValidSuffix, StatusReply, DoAll;
    NewStaysNew(c.transferSize, []);
    FirstSend(c.transferSize, data[..|data| - SUFFIX_LEN]);
    FreshPoll(c);
    assert [] + data == data;
  }

  lemma FirstSend(maxBlock: nat, block: Bytes)
    ensures TrySend(New(maxBlock), block, false) ==
            (New(maxBlock).(tx := true, status := true, drain := Connecting, queue := [block], fed := block), FeedOk(|block|))
  {
    hide QueueCapacity;
    CapacityAtLeastTwo(maxBlock);
    assert [] + block == block && [] + [block] == [block];
  }

  lemma FreshPoll(c: Config)
    ensures Poll(Fresh(c), false) == (Fresh(c), Fine)
  {
  }

  /** CLRSTATUS after a 17-byte block: its first byte is still on its way to SWUpdate. */
  lemma ClrStatusLeaks(c: Config, data: Bytes)
    requires |data| == 17
    ensures var d := Run(Fresh(c), [Req(Dnload(data, []), false)]);
            var cleared := Step(d, ClrStatus, false);
            && CleanRun(Fresh(c), [Req(Dnload(data, []), false)]) && !d.state.Error? && cleared.note.Fine?
            && StreamOf(cleared.d) == data[..1] && cleared.d.tail == []
  {
    hide Crc32.Update;
    FirstBlock(c, data);
    assert data[..1] + [] + [] + [] == data[..1];
  }

  /** An unsupported request after a 17-byte block: all of it is still in the stream that the next block continues. */
  lemma RefusalLeaks(c: Config, data: Bytes)
    requires |data| == 17
    ensures var before := [Req(Dnload(data, []), false)];
            var d := Run(Fresh(c), before);
            && CleanRun(Fresh(c), before) && Poll(d, false).1.Fine?
            && StreamOf(Step(d, OtherOut, false).d) == data
  {
    hide CleanRun, Run, Payload, Step, Poll, Started, StreamOf;
    var before := [Req(Dnload(data, []), false)];
    FirstBlock(c, data);
    StartedPoll(c, data);
    RefusalJoinsFiles(c, before, OtherOut, false);
    var b := Step(Run(Fresh(c), before), OtherOut, false).d;
    CleanNothing(b);
    RunNothing(b);
    assert StreamOf(Run(b, [])) == data + [] == data;
  }

  lemma StartedPoll(c: Config, data: Bytes)
    requires |data| > SUFFIX_LEN
    ensures Poll(Started(c, data), false).1.Fine?
  {
    hide Crc32.Update;
  }

  /** A 17-byte block, and the connection to SWUpdate fails. */
  function FailedRun(data: Bytes): seq<Input> { [Req(Dnload(data, []), false), Env(ConnectErr)] }

  lemma FailedRunFails(c: Config, data: Bytes)
    requires |data| == 17
    ensures var d := Run(Fresh(c), FailedRun(data));
            CleanRun(Fresh(c), FailedRun(data)) && StreamInv(d, [], data) && d.tail == data[1..] && Poll(d, false).1.SwFailed?
  {
    hide Crc32.Update, Poll, QueueCapacity, CleanRun, Run, Payload, StreamInv;
    var first := Req(Dnload(data, []), false);
    FirstBlock(c, data);
    CleanRunStreams(c, [first]);
    MoveKeepsStream(Started(c, data), [], data, ConnectErr);
    RunSnoc(Fresh(c), [first], Env(ConnectErr));
    assert [first] + [Env(ConnectErr)] == FailedRun(data);
    FailedConnect(c, data);
  }

  /** The host looks at the status, then sends one byte: 16 old bytes lead the new file. */
  lemma FailureLeaks(c: Config, data: Bytes, b: byte)
    requires |data| == 17
    ensures var d := Run(Fresh(c), FailedRun(data));
            var looks, next := [Req(GetStatus, false)], Dnload([b], []);
            && FindsFailure(d, looks + [Req(next, false)]) && (forall i :: i in looks ==> Watches(i))
            && StreamOf(Run(d, looks + [Req(next, false)])) == data[1..] + [b]
  {
    hide Poll, CleanRun, Run, Payload, StreamInv, Serve, FailedRun, AfterReport;
    FailedRunFails(c, data);
    var d := Run(Fresh(c), FailedRun(data));
    var looks, next := [Req(GetStatus, false)], Dnload([b], []);
    assert (looks + [Req(next, false)])[0] == looks[0];
    NextMove(d, looks, next, false);
    var x := Facing(d, looks);
    CleanNothing(Serve(x, next, false).d);
    StreamAfterFailure(d, x, next, false, []);
    assert [b] + [] == [b];
    RunNothing(Serve(x, next, false).d);
  }

  /** The host ends the file instead: the 16 old bytes are manifested as firmware. */
  lemma OldTailIsManifested(c: Config, data: Bytes)
    requires |data| == 17 && data[9] != 0x55
    ensures var d := Run(Fresh(c), FailedRun(data));
            var b := Run(d, [Req(DnloadEmpty, false)]);
            && FindsFailure(d, [Req(DnloadEmpty, false)])
            && b.state.Manifest? && b.status.Ok? && b.sink.Handed() + PendingBytes(b) == data[1..]
  {
    hide Poll, CleanRun, Run, Payload, StreamInv, FailedRun;
    FailedRunFails(c, data);
    assert [] + [Req(DnloadEmpty, false)] == [Req(DnloadEmpty, false)];
    FailureManifestsOldTail(c, FailedRun(data), [], false);
    assert !FileHasSuffix(data[1..]) by { NoSignature(data[1..]); }
  }

  lemma NoSignature(p: Bytes)
    requires |p| == SUFFIX_LEN && p[8] != 0x55
    ensures !FileHasSuffix(p)
  {
    hide Crc32.Update, LeValue;
    assert p[|p| - 8..|p| - 5][0] == p[8];
  }

  lemma RunNothing(d: Handler)
    ensures Run(d, []) == d
  {
  }

  lemma FailedConnect(c: Config, data: Bytes)
    requires |data| == 17
    ensures var d := Started(c, data).(sink := Do(Started(c, data).sink, ConnectErr));
            Poll(d, false).1.SwFailed? && d.tail == data[1..]
  {
    hide Crc32.Update;
  }
}
