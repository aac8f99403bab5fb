/** Where the two fastboot transports differ, and where USB framing gives way, with the exact conditions. */
module FastbootDifferences {
  import opened ByteSeq
  import opened Proto
  import opened Swupdate
  import opened Dialog
  import Usb = FastbootUsb
  import UsbDialog = FastbootUsbDialog
  import UsbFraming = FastbootUsbFraming
  import Tcp = FastbootTcp
  import TcpDialog = FastbootTcpDialog

  // --- One command on both transports ------------------------------------------

  /** The same bytes arrive as a completion on USB and as a frame on TCP. */
  function OnUsb(u: Usb.Usb, chunk: Bytes, restart: bool): Usb.Usb { Usb.RxChunk(u, chunk, restart, true) }

  function OnTcp(t: Tcp.Tcp, chunk: Bytes, restart: bool): Tcp.Tcp { Tcp.Frame(t, chunk, restart) }

  /** Both transports stand at `d`, between two commands. */
  ghost predicate InStep(u: Usb.Usb, t: Tcp.Tcp, d: State) {
    && UsbDialog.Follows(u, d) && TcpDialog.Follows(t, d) && u.info == t.info
    && d.remaining == 0 && !d.finishing
  }

  ghost predicate SameReplies(u: Usb.Usb, t: Tcp.Tcp, chunk: Bytes, restart: bool) {
    exists rs :: OnUsb(u, chunk, restart).out == u.out + rs && OnTcp(t, chunk, restart).out == t.out + rs
  }

  /** There is a state at which both transports stand afterwards. */
  ghost predicate StayInStep(u: Usb.Usb, t: Tcp.Tcp, chunk: Bytes, restart: bool) {
    exists e :: UsbDialog.Follows(OnUsb(u, chunk, restart), e) && TcpDialog.Follows(OnTcp(t, chunk, restart), e)
  }

  /** A download of at least one byte that will not be refused. */
  predicate StartsDownload(d: State, chunk: Bytes, restart: bool) {
    && ParseCommand(chunk).Some? && ParseCommand(chunk).value.0.Download?
    && ParseCommand(chunk).value.0.len > 0 && (d.open || !restart)
  }

  lemma SameExactly(a: seq<Reply>, x: seq<Reply>, b: seq<Reply>, y: seq<Reply>)
    ensures (exists rs :: a + x == a + rs && b + y == b + rs) <==> x == y
  {
    if x == y {
      var rs := x;
      assert a + x == a + rs && b + y == b + rs;
    }
    if rs :| a + x == a + rs && b + y == b + rs {
      assert (a + x)[|a|..] == x && (a + rs)[|a|..] == rs;
      assert (b + y)[|b|..] == y && (b + rs)[|b|..] == rs;
    }
  }

  lemma FeedReplies(a: Usb.Usb, e: State, rest: Bytes, restart: bool)
    requires UsbDialog.Follows(a, e) && a.Active() && rest != [] && !a.sink.Full()
    ensures var v := Usb.DownloadChunk(a, rest, restart);
            && v.size == a.size && v.done == a.done + |rest|
            && v.out == a.out + if |rest| >= a.Remaining() then [Okay] else []
  {
    hide QueueCapacity;
    SendHands(a.sink, rest, restart);
    assert a.out + [] == a.out;
  }

  lemma StartKeepsRoom(u: Usb.Usb, c: Command, restart: bool)
    requires c.Download? && (u.sink.IsOpen() || !restart) && !u.sink.Full()
    ensures !Usb.HandleCommand(u, c, restart, true).0.sink.Full()
    ensures Usb.HandleCommand(u, c, restart, true).1
  {
    hide DataHeader, QueueCapacity;
    CapacityAtLeastTwo(u.sink.maxBlock);
  }

  /** What each transport makes of a chunk that parses. */
  lemma ParsedChunk(u: Usb.Usb, t: Tcp.Tcp, d: State, chunk: Bytes, restart: bool)
    requires InStep(u, t, d) && ParseCommand(chunk).Some? && Usb.Ready(u, Usb.Input.Recv(chunk, restart, true))
    ensures var (c, n) := ParseCommand(chunk).value;
            var (e, rs) := OnCommand(u.info, d, c, restart);
            var inlined := StartsDownload(d, chunk, restart) && Inlined(chunk) != [];
            var v := OnUsb(u, chunk, restart);
            && TcpDialog.Follows(OnTcp(t, chunk, restart), e) && OnTcp(t, chunk, restart).out == t.out + rs
            && (!inlined ==> UsbDialog.Follows(v, e) && v.out == u.out + rs)
            && (inlined ==>
                  && v.size == c.len && v.done == |Inlined(chunk)| && e.remaining == c.len
                  && v.out == u.out + rs + if |Inlined(chunk)| >= c.len then [Okay] else [])
  {
    hide ParseCommand, Usb.HandleCommand, Usb.DownloadChunk, Tcp.Dispatch, DataHeader, Session.Full, Inv;
    ParseConsumes(chunk);
    var (c, n) := ParseCommand(chunk).value;
    var v := u.(commands := u.commands + [chunk]);
    assert UsbDialog.Follows(v, d);
    UsbDialog.CommandFollows(v, d, c, restart);
    UsbDialog.ActiveMeansDownload(v, c, restart);
    TcpDialog.CommandFollows(t, d, c, restart);
    OpenMatches(u, d);
    if c.Download? && (d.open || !restart) && n < |chunk| {
      StartKeepsRoom(v, c, restart);
      if c.len > 0 {
        var a := Usb.HandleCommand(v, c, restart, true).0;
        FeedReplies(a, OnCommand(u.info, d, c, restart).0, chunk[n..], restart);
        Announced(v, c, restart);
      }
    }
  }

  lemma OpenMatches(u: Usb.Usb, d: State)
    requires UsbDialog.Follows(u, d) && !d.finishing
    ensures u.sink.IsOpen() == d.open
  {
  }

  lemma Announced(u: Usb.Usb, c: Command, restart: bool)
    requires c.Download? && c.len > 0 && (u.sink.IsOpen() || !restart)
    ensures var a := Usb.HandleCommand(u, c, restart, true).0; a.size == c.len && a.done == 0
  {
    hide DataHeader;
  }

  /**
   The transports answer a command alike if and only if it parses and is not an accepted download whose whole
   payload is inlined behind it: USB acknowledges that payload at once, TCP waits for data frames.
   */
  lemma RepliesAgreeExactly(u: Usb.Usb, t: Tcp.Tcp, d: State, chunk: Bytes, restart: bool)
    requires InStep(u, t, d) && Usb.Ready(u, Usb.Input.Recv(chunk, restart, true))
    ensures SameReplies(u, t, chunk, restart) <==>
            && ParseCommand(chunk).Some?
            && !(StartsDownload(d, chunk, restart) && |Inlined(chunk)| >= ParseCommand(chunk).value.0.len)
  {
    hide ParseCommand, OnCommand, Usb.HandleCommand, Tcp.Dispatch, InStep;
    if ParseCommand(chunk).Some? {
      ParsedChunk(u, t, d, chunk, restart);
      var rs := OnCommand(u.info, d, ParseCommand(chunk).value.0, restart).1;
      var more := if StartsDownload(d, chunk, restart) && |Inlined(chunk)| >= ParseCommand(chunk).value.0.len then [Okay] else [];
      assert rs + [] == rs && u.out + rs + more == u.out + (rs + more);
      assert OnUsb(u, chunk, restart).out == u.out + (rs + more);
      SameExactly(u.out, rs + more, t.out, rs);
      assert more != [] ==> |rs + more| > |rs|;
    } else {
      NotParsed(u, t, d, chunk, restart);
      SameExactly(u.out, [], t.out, [FailCmd]);
    }
  }

  lemma NotParsed(u: Usb.Usb, t: Tcp.Tcp, d: State, chunk: Bytes, restart: bool)
    requires InStep(u, t, d) && ParseCommand(chunk).None?
    ensures OnUsb(u, chunk, restart).out == u.out + [] && OnTcp(t, chunk, restart).out == t.out + [FailCmd]
  {
    hide ParseCommand;
    assert u.out + [] == u.out;
  }

  /** They also stay in step if and only if it parses and nothing is inlined behind an accepted download. */
  lemma CommandAgreesExactly(u: Usb.Usb, t: Tcp.Tcp, d: State, chunk: Bytes, restart: bool)
    requires InStep(u, t, d) && Usb.Ready(u, Usb.Input.Recv(chunk, restart, true))
    ensures SameReplies(u, t, chunk, restart) && StayInStep(u, t, chunk, restart) <==>
            ParseCommand(chunk).Some? && !(StartsDownload(d, chunk, restart) && Inlined(chunk) != [])
  {
    hide ParseCommand, OnCommand, InStep, OnUsb, OnTcp, SameReplies, UsbDialog.Follows, TcpDialog.Follows;
    RepliesAgreeExactly(u, t, d, chunk, restart);
    if ParseCommand(chunk).Some? {
      ParsedChunk(u, t, d, chunk, restart);
      var e := OnCommand(u.info, d, ParseCommand(chunk).value.0, restart).0;
      var v, w := OnUsb(u, chunk, restart), OnTcp(t, chunk, restart);
      if StartsDownload(d, chunk, restart) && Inlined(chunk) != [] {
        if f :| UsbDialog.Follows(v, f) && TcpDialog.Follows(w, f) { OutOfStep(v, w, e, f); }
      } else {
        assert UsbDialog.Follows(v, e) && TcpDialog.Follows(w, e);
      }
    }
  }

  /** A USB download that has received something and a TCP one that has not are at different points. */
  lemma OutOfStep(v: Usb.Usb, w: Tcp.Tcp, e: State, f: State)
    requires v.done > 0 && v.size == e.remaining > 0 && TcpDialog.Follows(w, e)
    ensures !(UsbDialog.Follows(v, f) && TcpDialog.Follows(w, f))
  {
  }

  // --- A verdict inside the data phase ---------------------------------------------

  /** A look at SWUpdate and a completion within the boundary. */
  function BlockOnUsb(u: Usb.Usb, b: Bytes, restart: bool): Usb.Usb { Usb.RxChunk(Usb.CheckFailed(u), b, restart, true) }

  /** A block read from the connection, the look at SWUpdate, and the feed if one follows. */
  function BlockOnTcp(t: Tcp.Tcp, b: Bytes, restart: bool): Tcp.Tcp
    requires t.pc.Streaming? && |b| <= t.pc.remaining
  {
    var read := Tcp.Block(t, b);
    if read.pc.Feeding? then Tcp.FeedBlock(read, restart) else read
  }

  /** A live transfer with room. */
  ghost predicate Live(s: Session) { Inv(s) && s.tx && s.status && !s.ReceiverGone() && !s.Full() }

  /** Both transports are at the same point of a download on live transfers, and SWUpdate has said the same on both. */
  ghost predicate BothDownloading(u: Usb.Usb, t: Tcp.Tcp) {
    && UsbFraming.FlagsAgree(u) && u.Active() && u.failReply.None? && Live(u.sink) && Live(t.sink)
    && t.pc == Tcp.Streaming(u.Remaining(), true)
    && PollStatus(u.sink).1 == PollStatus(t.sink).1
  }

  /** The replies to a block of `n` out of `r` remaining bytes, given the verdict found. */
  function UsbReplies(v: Option<Swupdate.Verdict>, n: nat, r: nat): seq<Reply> {
    if n < r then [] else if v == Some(Failure) then [FailEpipe] else [Okay]
  }

  function TcpReplies(v: Option<Swupdate.Verdict>, n: nat, r: nat): seq<Reply> {
    if v == Some(Failure) then [FailEpipe] else if n < r then [] else [Okay]
  }

  lemma BlockOnUsbDoes(u: Usb.Usb, b: Bytes, restart: bool)
    requires UsbFraming.FlagsAgree(u) && u.Active() && u.failReply.None? && Live(u.sink) && 0 < |b| <= u.Remaining()
    ensures var v, w := PollStatus(u.sink).1, BlockOnUsb(u, b, restart);
            && w.out == u.out + UsbReplies(v, |b|, u.Remaining())
            && Gained(u.sink.Handed(), w.sink.Handed()) == if v == Some(Failure) then [] else b
  {
    hide ParseCommand, Usb.HandleCommand, QueueCapacity, Concat;
    var c := Usb.CheckFailed(u);
    ApplyKeepsInv(u.sink, OpPoll);
    assert u.out + [] == u.out;
    if PollStatus(u.sink).1 != Some(Failure) {
      SendHands(c.sink, b, restart);
      assert c.sink.Handed() == u.sink.Handed();
    }
  }

  lemma BlockOnTcpDoes(t: Tcp.Tcp, b: Bytes, restart: bool)
    requires Live(t.sink) && t.pc.Streaming? && t.pc.forwarding && 0 < |b| <= t.pc.remaining
    ensures var v, w := PollStatus(t.sink).1, BlockOnTcp(t, b, restart);
            && w.out == t.out + TcpReplies(v, |b|, t.pc.remaining)
            && Gained(t.sink.Handed(), w.sink.Handed()) == if v.None? then b else []
  {
    hide TrySend, Live, Swupdate.Abort;
    LiveAccepts(t.sink, b, restart);
    AbortHandsNothing(PollStatus(t.sink).0);
    assert t.out + [] == t.out;
    var v := PollStatus(t.sink).1;
    if v.Some? { assert v.value.Success? || v.value.Failure?; }
  }

  lemma LiveAccepts(s: Session, b: Bytes, restart: bool)
    requires Live(s)
    ensures s.IsOpen() && TrySend(s, b, restart).1.FeedOk? && TrySend(s, b, restart).0.Handed() == s.Handed() + b
  {
    hide QueueCapacity, Concat;
    SendHands(s, b, restart);
  }

  lemma AbortHandsNothing(s: Session)
    ensures Swupdate.Abort(s).Handed() == s.Handed()
  {
  }

  /**
   A verdict before the end of the data phase separates the transports: after a success USB goes on feeding and
   TCP throws the rest away, and a failure is answered on USB at the boundary and on TCP at once.  A block is
   handed over alike if and only if no success was there, and answered alike if and only if no failure was
   there or the block ends the download.
   */
  lemma VerdictSeparates(u: Usb.Usb, t: Tcp.Tcp, b: Bytes, restart: bool)
    requires BothDownloading(u, t) && 0 < |b| <= u.Remaining()
    ensures var v, x, y := PollStatus(u.sink).1, BlockOnUsb(u, b, restart), BlockOnTcp(t, b, restart);
            && (Gained(u.sink.Handed(), x.sink.Handed()) == Gained(t.sink.Handed(), y.sink.Handed()) <==> v != Some(Success))
            && ((exists rs :: x.out == u.out + rs && y.out == t.out + rs) <==> v != Some(Failure) || |b| == u.Remaining())
  {
    hide BlockOnUsb, BlockOnTcp, Live;
    BlockOnUsbDoes(u, b, restart);
    BlockOnTcpDoes(t, b, restart);
    var v := PollStatus(u.sink).1;
    if v.Some? { assert v.value.Success? || v.value.Failure?; }
    assert b != [];
    SameExactly(u.out, UsbReplies(v, |b|, u.Remaining()), t.out, TcpReplies(v, |b|, u.Remaining()));
  }

  // --- Concrete runs -----------------------------------------------------------------

  /** "download:00000001". */
  function OneByteDownload(): Bytes { DownloadHeader(DOWNLOAD, Plain, HexDigits(1, SIZE_WIDTH)) }

  lemma OneByteParses(payload: Bytes)
    ensures ParseCommand(OneByteDownload() + payload) == Some((Download(1, Plain), |OneByteDownload()|))
  {
    hide ParseCommand, HexDigits, Pow16;
    assert Pow16(SIZE_WIDTH) > 1 by { BigEnough(); }
    ParseHexOfDigits(1, SIZE_WIDTH);
    DownloadParses([], DOWNLOAD, Plain, HexDigits(1, SIZE_WIDTH), payload);
    assert [] + OneByteDownload() + payload == OneByteDownload() + payload;
  }

  lemma BigEnough()
    ensures Pow16(SIZE_WIDTH) > 1
  {
    assert Pow16(SIZE_WIDTH) == 16 * Pow16(SIZE_WIDTH - 1);
  }

  lemma StartInStep(info: Info)
    ensures InStep(Usb.Start(info), Tcp.Start(info), START)
  {
  }

  /** A download command with its one byte of payload: "DATA", "OKAY" on USB, only "DATA" on TCP. */
  lemma TransportsDiffer(info: Info, b: byte)
    ensures var u, t, chunk := Usb.Start(info), Tcp.Start(info), OneByteDownload() + [b];
            && InStep(u, t, START) && Usb.Ready(u, Usb.Input.Recv(chunk, false, true)) && ParseCommand(chunk).Some?
            && OnUsb(u, chunk, false).out == [Raw(DataHeader(1)), Okay]
            && OnTcp(t, chunk, false).out == [Raw(DataHeader(1))]
  {
    hide ParseCommand, DataHeader, OneByteDownload, InStep;
    var u, t, chunk := Usb.Start(info), Tcp.Start(info), OneByteDownload() + [b];
    StartInStep(info);
    OneByteParses([b]);
    NewHasRoom();
    ParsedChunk(u, t, START, chunk, false);
    assert [] + [Raw(DataHeader(1))] == [Raw(DataHeader(1))];
    assert [] + ([Raw(DataHeader(1))] + []) + [Okay] == [Raw(DataHeader(1)), Okay];
    assert Inlined(chunk) == [b];
  }

  /** An empty chunk is answered on TCP only. */
  lemma TransportsDifferUnparsed(info: Info)
    ensures InStep(Usb.Start(info), Tcp.Start(info), START) && Usb.Ready(Usb.Start(info), Usb.Input.Recv([], false, true))
    ensures OnUsb(Usb.Start(info), [], false).out == [] && OnTcp(Tcp.Start(info), [], false).out == [FailCmd]
  {
  }

  lemma NewHasRoom()
    ensures !New(Usb.RECV_BUFFER_SIZE).Full()
  {
  }

  /** The USB function once a one-byte download is announced. */
  function Announcing(info: Info): Usb.Usb {
    Usb.Start(info).(sink := New(Usb.RECV_BUFFER_SIZE).(tx := true, status := true, drain := Connecting), size := 1,
                     pendingFlash := true, out := [Raw(DataHeader(1))], commands := [OneByteDownload()])
  }

  lemma AnnouncingIsReached(info: Info)
    ensures Usb.RunUsb(Usb.Start(info), [Usb.Input.Recv(OneByteDownload(), false, true)]) == Announcing(info)
    ensures Usb.CanRunUsb(Usb.Start(info), [Usb.Input.Recv(OneByteDownload(), false, true)])
    ensures UsbFraming.InDownload(Announcing(info))
  {
    hide ParseCommand, DataHeader, OneByteDownload;
    OneByteParses([]);
    assert OneByteDownload() + [] == OneByteDownload();
    NewHasRoom();
    var i := Usb.Input.Recv(OneByteDownload(), false, true);
    assert [i][1..] == [];
    assert [] + [OneByteDownload()] == [OneByteDownload()] && [] + [Raw(DataHeader(1))] == [Raw(DataHeader(1))];
    assert Usb.Take(Usb.Start(info), i) == Announcing(info);
  }

  /** One byte is announced and a completion brings two: it is acknowledged twice, and both bytes go to SWUpdate. */
  lemma SurplusIsAnswered(info: Info, x: byte, y: byte)
    ensures var u := Usb.RunUsb(Usb.Start(info), [Usb.Input.Recv(OneByteDownload(), false, true)]);
            var v := Usb.RxChunk(u, [x, y], false, true);
            && UsbFraming.InDownload(u) && u.Remaining() == 1
            && |v.out| == |u.out| + 2 && v.sink.Handed() == [x, y]
  {
    hide Usb.RxChunk, OneByteDownload, DataHeader, Usb.RunUsb, UsbFraming.InDownload;
    AnnouncingIsReached(info);
    var u := Announcing(info);
    SurplusHasRoom(info, x, y);
    UsbFraming.OneReplyExactlyWithoutSurplus(u, [x, y], false, true, [], []);
    Usb.NoWaiting(u, [x, y], false, true);
    assert [] + [x, y] == [x, y];
  }

  lemma SurplusHasRoom(info: Info, x: byte, y: byte)
    ensures var u := Announcing(info);
            !DoAll(u.sink, []).Full() && !DoAll(UsbFraming.ToBoundary(u, [x, y], false, []).sink, []).Full()
  {
    hide OneByteDownload, DataHeader, QueueCapacity;
    CapacityAtLeastTwo(Usb.RECV_BUFFER_SIZE);
  }

  /** The command and two bytes for one announced: one OKAY, and both bytes go to SWUpdate. */
  lemma InlinedSurplus(info: Info, x: byte, y: byte)
    ensures var chunk := OneByteDownload() + [x, y];
            var i := Usb.Input.Recv(chunk, false, true);
            && Usb.CanRunUsb(Usb.Start(info), [i]) && ParseCommand(chunk) == Some((Download(1, Plain), |OneByteDownload()|))
            && var v := Usb.RunUsb(Usb.Start(info), [i]);
               v.out == [Raw(DataHeader(1)), Okay] && v.sink.Handed() == [x, y]
  {
    hide ParseCommand, DataHeader, OneByteDownload, Usb.RxChunk, Usb.HandleCommand;
    var u, chunk := Usb.Start(info), OneByteDownload() + [x, y];
    OneByteParses([x, y]);
    assert Inlined(chunk) == [x, y];
    NewInv(Usb.RECV_BUFFER_SIZE);
    NewHasRoom();
    UsbFraming.AnnouncedHasRoom(u, chunk, Download(1, Plain), false);
    UsbFraming.NoMoves(UsbFraming.Answered(u, chunk, false).sink);
    UsbFraming.InlinedPayload(u, chunk, false, [], []);
    Usb.NoWaiting(u, chunk, false, true);
    assert [] + [Raw(DataHeader(1))] + [Okay] == [Raw(DataHeader(1)), Okay] && [] + [x, y] == [x, y];
    assert [Usb.Input.Recv(chunk, false, true)][1..] == [];
  }

  /** A live transfer that connected and whose status task has already reported success. */
  function Early(s: Session): Session { Do(Do(s, ConnectOk), Settle(Success)) }

  lemma EarlyUsbIsReached(info: Info)
    ensures var run := [Usb.Input.Recv(OneByteDownload(), false, true), Usb.Input.Env(ConnectOk), Usb.Input.Env(Settle(Success))];
            && Usb.CanRunUsb(Usb.Start(info), run)
            && Usb.RunUsb(Usb.Start(info), run) == Announcing(info).(sink := Early(Announcing(info).sink))
  {
    hide OneByteDownload, DataHeader, ParseCommand, Usb.RxChunk;
    AnnouncingIsReached(info);
    var a, b, c := Usb.Input.Recv(OneByteDownload(), false, true), Usb.Input.Env(ConnectOk), Usb.Input.Env(Settle(Success));
    var run := [a, b, c];
    assert [a][1..] == [] && run[1..] == [b, c] && [b, c][1..] == [c] && [c][1..] == [];
    var u1 := Usb.Take(Usb.Start(info), a);
    assert Usb.RunUsb(u1, []) == u1 && u1 == Announcing(info);
    var u2 := Usb.Take(u1, b);
    var u3 := Usb.Take(u2, c);
    assert Usb.RunUsb(u3, []) == u3 && Usb.RunUsb(u2, [c]) == u3 && Usb.RunUsb(u1, [b, c]) == u3;
    assert Usb.CanRunUsb(u2, [c]) && Usb.CanRunUsb(u1, [b, c]);
  }

  /** The TCP session once a one-byte download is announced. */
  function AnnouncingTcp(info: Info): Tcp.Tcp {
    Tcp.Start(info).(sink := New(Tcp.RECV_BUFFER_SIZE).(tx := true, status := true, drain := Connecting),
                     pendingFlash := true, pc := Tcp.Streaming(1, true), out := [Raw(DataHeader(1))])
  }

  lemma EarlyTcpIsReached(info: Info)
    ensures var run := [Tcp.Input.Command(OneByteDownload(), false), Tcp.Input.Env(ConnectOk), Tcp.Input.Env(Settle(Success))];
            && Tcp.CanRunTcp(Tcp.Start(info), run)
            && Tcp.RunTcp(Tcp.Start(info), run) == AnnouncingTcp(info).(sink := Early(AnnouncingTcp(info).sink))
  {
    hide OneByteDownload, DataHeader, ParseCommand;
    OneByteParses([]);
    assert OneByteDownload() + [] == OneByteDownload() && [] + [Raw(DataHeader(1))] == [Raw(DataHeader(1))];
    var a, b, c := Tcp.Input.Command(OneByteDownload(), false), Tcp.Input.Env(ConnectOk), Tcp.Input.Env(Settle(Success));
    var run := [a, b, c];
    assert run[1..] == [b, c] && [b, c][1..] == [c] && [c][1..] == [];
    var t1 := Tcp.Take(Tcp.Start(info), a);
    assert t1 == AnnouncingTcp(info);
    var t2 := Tcp.Take(t1, b);
    var t3 := Tcp.Take(t2, c);
    assert Tcp.CanRunTcp(t3, []) && Tcp.CanRunTcp(t2, [c]) && Tcp.CanRunTcp(t1, [b, c]);
    assert Tcp.RunTcp(t3, []) == t3 && Tcp.RunTcp(t2, [c]) == t3 && Tcp.RunTcp(t1, [b, c]) == t3;
  }

  /** Success is reported before the one byte arrives: both transports answer OKAY, only USB hands the byte over. */
  lemma EarlySuccessDiffers(info: Info, x: byte)
    ensures var u := Announcing(info).(sink := Early(Announcing(info).sink));
            var t := AnnouncingTcp(info).(sink := Early(AnnouncingTcp(info).sink));
            && BothDownloading(u, t) && u.Remaining() == 1
            && BlockOnUsb(u, [x], false).out == u.out + [Okay] && BlockOnUsb(u, [x], false).sink.Handed() == [x]
            && BlockOnTcp(t, [x], false).out == t.out + [Okay] && BlockOnTcp(t, [x], false).sink.Handed() == []
  {
    hide OneByteDownload, DataHeader, BlockOnUsb, BlockOnTcp;
    var u := Announcing(info).(sink := Early(Announcing(info).sink));
    var t := AnnouncingTcp(info).(sink := Early(AnnouncingTcp(info).sink));
    EarlyIsLive(Usb.RECV_BUFFER_SIZE);
    EarlyIsLive(Tcp.RECV_BUFFER_SIZE);
    BlockOnUsbDoes(u, [x], false);
    BlockOnTcpDoes(t, [x], false);
    assert [] <= BlockOnUsb(u, [x], false).sink.Handed();
  }

  lemma EarlyIsLive(maxBlock: nat)
    ensures var s := Early(New(maxBlock).(tx := true, status := true, drain := Connecting));
            Live(s) && PollStatus(s).1 == Some(Success) && s.Handed() == []
  {
    hide QueueCapacity;
    CapacityAtLeastTwo(maxBlock);
  }

  // --- A finish without a transfer -------------------------------------------------

  /**
   A download waits for `flash` but its transfer is gone.  Both transports then refuse `flash` once with "close"
   and afterwards with "flash before download".  `Close` is refused as well, but only TCP forgets the download
   with it: a later `flash` is still refused with "close" on USB.
   */
  lemma FinishWithoutTransfer(u: Usb.Usb, t: Tcp.Tcp, restart: bool)
    requires !u.Active() && u.pendingFlash && !u.sink.IsOpen()
    requires t.pc.Commands? && t.pendingFlash && !t.sink.IsOpen()
    ensures var v := Usb.HandleCommand(u, Flash, restart, true).0;
            v.out == u.out + [InfoWait, FailClose] && Usb.HandleCommand(v, Flash, restart, true).0.out == v.out + [FailFlash]
    ensures var v := Tcp.Dispatch(t, Flash, restart);
            v.out == t.out + [InfoWait, FailClose] && Tcp.Dispatch(v, Flash, restart).out == v.out + [FailFlash]
    ensures var v := Usb.HandleCommand(u, Close, restart, true).0;
            v.out == u.out + [FailClose] && Usb.HandleCommand(v, Flash, restart, true).0.out == v.out + [InfoWait, FailClose]
    ensures var v := Tcp.Dispatch(t, Close, restart);
            v.out == t.out + [FailClose] && Tcp.Dispatch(v, Flash, restart).out == v.out + [FailFlash]
  {
    var v := Usb.HandleCommand(u, Close, restart, true).0;
    assert u.out + [InfoWait] + [FailClose] == u.out + [InfoWait, FailClose];
    assert v.out + [InfoWait] + [FailClose] == v.out + [InfoWait, FailClose];
    assert t.out + [InfoWait] + [FailClose] == t.out + [InfoWait, FailClose];
  }
}
