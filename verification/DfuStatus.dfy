/**
 What a DFU host reads, in the numbers of section 6.1.2 of USB DFU 1.1.  The reference below is the state diagram
 as a host knows it, over the bytes bStatus and bState; the handler is shown to follow it in every run.
 */
module DfuStatus {
  import opened ByteSeq
  import opened Swupdate
  import opened Dfu
  import opened DfuStream
  import opened DfuSafety
  import Verdicts

  /** The two bytes that describe the device. */
  datatype Face = Face(status: byte, state: byte)

  function FaceOf(d: Handler): Face { Face(StatusCode(d.status), StateCode(d.state)) }

  const FRESH: Face := Face(0x00, 2)
  const STALLED: Face := Face(0x0F, 10)
  const FAILED: Face := Face(0x07, 10)

  /** The poll that precedes a request, by what it finds out about the transfer. */
  function AfterPoll(f: Face, found: Option<Verdict>): Face {
    if found == Some(Failure) then FAILED
    else if found == Some(Success) && f.state == 7 then Face(0x00, 6)
    else f
  }

  /** What happened inside a request that the bytes alone do not tell. */
  datatype Inside = Inside(
    clash: bool,     // a block arrived while another was held
    held: bool,      // a block is held
    upload: bool,    // there is an upload source
    last: bool)      // the uploaded block was a short one

  function AfterRequest(f: Face, req: Request, x: Inside): Face {
    match req
    case Dnload(_, _) => if f.state == 6 || f.state == 7 then f else if x.clash then STALLED else Face(0x00, 3)
    case DnloadLost(closed) => if f.state == 6 || f.state == 7 || !closed then f else FRESH
    case DnloadEmpty => if x.clash then STALLED else Face(0x00, 7)
    case Detach => f.(state := 1)
    case ClrStatus => FRESH
    case Abort => FRESH
    case OtherOut => STALLED
    case OtherIn => STALLED
    case GetStatus =>
      if f.state == 3 || f.state == 4 then f.(state := if x.held then 4 else 5)
      else if f.state == 6 then f.(state := 2)
      else f
    case GetState => f
    case Upload(_) => if !x.upload then f else f.(state := if x.last then 2 else 9)
    case Reset => FRESH
  }

  /** What the poll sees: it looks at the transfer in Manifest, and otherwise only while one is open. */
  function Found(d: Handler, restart: bool): Option<Verdict> {
    var e := PushPending(d, restart).0;
    if d.state.Manifest? || e.sink.IsOpen() then PollStatus(e.sink).1 else None
  }

  function InsideOf(d: Handler, req: Request, restart: bool): Inside {
    var e := Step(d, req, restart);
    Inside(e.note.Violation?, e.d.pending.Some?, d.config.upload.Some?, |e.reply| < d.config.transferSize)
  }

  lemma PushKeepsFace(d: Handler, restart: bool)
    ensures FaceOf(PushPending(d, restart).0) == FaceOf(d) && PushPending(d, restart).0.state == d.state
    ensures PushPending(d, restart).0.config == d.config
  {
    hide TrySend;
  }

  lemma PollFollows(d: Handler, restart: bool)
    ensures var (p, note) := Poll(d, restart);
            && (note.Refused? ==> FaceOf(p) == FaceOf(d))
            && (!note.Refused? ==> FaceOf(p) == AfterPoll(FaceOf(d), Found(d, restart)))
            && p.config == d.config
            && (note.SwFailed? ==> p.pending.None? && Found(d, restart) == Some(Failure))
  {
    hide PushPending;
    PushKeepsFace(d, restart);
    Numbers(d.state);
  }

  /** The states are told apart by their numbers. */
  lemma Numbers(s: State)
    ensures StateCode(s) == 3 <==> s.DnloadSync?
    ensures StateCode(s) == 4 <==> s.DnBusy?
    ensures StateCode(s) == 6 <==> s.ManifestSync?
    ensures StateCode(s) == 7 <==> s.Manifest?
  {
  }

  lemma SubmitFollows(d: Handler, chunk: Bytes, restart: bool)
    ensures var (e, note) := SubmitChunk(d, chunk, restart);
            && FaceOf(e) == (if note.Violation? then STALLED else FaceOf(d))
            && (d.pending.None? ==> !note.Violation?)
  {
    hide PushPending;
    PushKeepsFace(d.(pending := Some(chunk)), restart);
  }

  lemma ServeFollows(d: Handler, req: Request, restart: bool)
    ensures var out := Serve(d, req, restart);
            && FaceOf(out.d) == AfterRequest(FaceOf(d), req, Inside(out.note.Violation?, out.d.pending.Some?,
                                                                    d.config.upload.Some?, |out.reply| < d.config.transferSize))
            && (d.pending.None? ==> !out.note.Violation?)
            && !out.note.SwFailed?
  {
    hide SubmitChunk, PushPending, HasValidSuffix, Crc32.Update, StatusReply;
    Numbers(d.state);
    match req
    case Dnload(data, ms) => TakeFollows(During(d, ms), data, restart);
    case DnloadEmpty => StartFollows(d, restart);
    case _ =>
  }

  lemma TakeFollows(d: Handler, data: Bytes, restart: bool)
    ensures var (e, note) := TakeBlock(d, data, restart);
            && FaceOf(e) == (if note.Violation? then STALLED else Face(0x00, 3))
            && (d.pending.None? ==> !note.Violation?) && !note.SwFailed?
  {
    hide SubmitChunk, Crc32.Update;
    var buf := d.tail + data;
    if |buf| > SUFFIX_LEN {
      var flush := |buf| - SUFFIX_LEN;
      var e := d.(state := DnloadSync, status := Ok, tail := buf[flush..], crc := Crc32.Update(d.crc, buf[..flush]));
      SubmitFollows(e, buf[..flush], restart);
      SubmitNote(e, buf[..flush], restart);
    }
  }

  lemma StartFollows(d: Handler, restart: bool)
    ensures var (e, note) := StartManifest(d, restart);
            && FaceOf(e) == (if note.Violation? then STALLED else Face(0x00, 7))
            && (d.pending.None? ==> !note.Violation?) && !note.SwFailed?
  {
    hide SubmitChunk, PushPending, HasValidSuffix;
    var e := d.(state := Manifest, status := Ok, tail := []);
    PushKeepsFace(e, restart);
    SubmitFollows(e, d.tail, restart);
    SubmitNote(e, d.tail, restart);
  }

  lemma SubmitNote(d: Handler, chunk: Bytes, restart: bool)
    ensures !SubmitChunk(d, chunk, restart).1.SwFailed?
  {
    hide PushPending;
  }

  /**
   One request.  Unless the poll refuses (a new transfer while a restart is pending), the device shows what the
   diagram says: first what the poll found, then the request.
   */
  lemma StepFollows(d: Handler, req: Request, restart: bool)
    ensures var out := Step(d, req, restart);
            var found := if req.Reset? then None else Found(d, restart);
            if !req.Reset? && Poll(d, restart).1.Refused? then FaceOf(out.d) == FaceOf(d) && out.note.Refused?
            else FaceOf(out.d) == AfterRequest(AfterPoll(FaceOf(d), found), req, InsideOf(d, req, restart))
    ensures Step(d, req, restart).d.config == d.config
  {
    hide Poll, Serve, AfterRequest, AfterPoll, FaceOf, Found;
    if req.Reset? {
      ServeFollows(d, req, restart);
      ServeKeepsConfig(d, req, restart);
      PollNothing(FaceOf(d));
    } else {
      PollFollows(d, restart);
      var p := Poll(d, restart).0;
      ServeFollows(p, req, restart);
      ServeKeepsConfig(p, req, restart);
    }
  }

  lemma PollNothing(f: Face)
    ensures AfterPoll(f, None) == f
  {
  }

  lemma ServeKeepsConfig(d: Handler, req: Request, restart: bool)
    ensures Serve(d, req, restart).d.config == d.config
  {
    hide TrySend, HasValidSuffix, Crc32.Update, StatusReply;
  }

  // --- The replies ------------------------------------------------------------------

  /** How long a host is told to wait: not at all between blocks, 100 ms while busy, else the configured time. */
  function PollTimeout(state: byte, configured: nat): nat {
    if state == 5 then 0 else if state == 4 || state == 6 || state == 7 then 100 else configured
  }

  /** bwPollTimeout of a status reply: bytes 1 to 3, the first the least significant. */
  function Wait(reply: Bytes): int
    requires |reply| == 6
  {
    var b1: int, b2: int, b3: int := reply[1], reply[2], reply[3];
    b1 + 0x100 * b2 + 0x1_0000 * b3
  }

  /** The six bytes: bStatus, bwPollTimeout in three little-endian bytes, bState, iString. */
  lemma StatusWire(d: Handler)
    ensures var r := StatusReply(d);
            && r[0] == FaceOf(d).status && r[4] == FaceOf(d).state && r[5] == 0
            && Wait(r) == PollTimeout(FaceOf(d).state, d.config.pollTimeoutMs) % 0x100_0000
  {
    hide LeBytes;
    var r := StatusReply(d);
    var ms := PollTimeout(FaceOf(d).state, d.config.pollTimeoutMs);
    assert r[1..4] == LeBytes(ms, 3);
    LowBytes(ms);
    assert r[1] == r[1..4][0] && r[2] == r[1..4][1] && r[3] == r[1..4][2];
  }

  /** The low three bytes of a number. */
  lemma LowBytes(n: nat)
    ensures LeBytes(n, 3) == [n % 256, n / 0x100 % 256, n / 0x1_0000 % 256]
    ensures n % 256 + 0x100 * (n / 0x100 % 256) + 0x1_0000 * (n / 0x1_0000 % 256) == n % 0x100_0000
  {
    Parts(n);
    var m, h := n / 0x100, n / 0x1_0000;
    hide *;
    OneByte(h);
    LeStep(m, 1);
    LeStep(n, 2);
  }

  lemma LeStep(n: nat, width: nat)
    ensures LeBytes(n, width + 1) == [n % 256] + LeBytes(n / 256, width)
  {
  }

  lemma OneByte(n: nat)
    ensures LeBytes(n, 1) == [n % 256]
  {
    LeStep(n, 0);
  }

  lemma Parts(n: nat)
    ensures n / 0x100 / 0x100 == n / 0x1_0000
    ensures n % 256 + 0x100 * (n / 0x100 % 256) + 0x1_0000 * (n / 0x1_0000 % 256) == n % 0x100_0000
  {
  }

  /** A GETSTATUS that is answered, from any handler, shows the device after it and changes nothing else in the face. */
  lemma GetStatusShows(d: Handler, restart: bool)
    ensures var out := Step(d, GetStatus, restart);
            !out.note.Refused? ==>
              && |out.reply| == 6
              && out.reply[0] == FaceOf(out.d).status && out.reply[4] == FaceOf(out.d).state && out.reply[5] == 0
              && Wait(out.reply) == PollTimeout(FaceOf(out.d).state, d.config.pollTimeoutMs) % 0x100_0000
  {
    hide Poll, StatusReply, FaceOf, PollTimeout;
    PollFollows(d, restart);
    StatusWire(AdvanceForStatus(Poll(d, restart).0));
  }

  /** GETSTATE is byte 4 of the status, unless GETSTATUS itself moves the device (states 3, 4 and 6). */
  lemma GetStateShows(d: Handler, restart: bool)
    ensures var out, status := Step(d, GetState, restart), Step(d, GetStatus, restart);
            !out.note.Refused? ==>
              && !status.note.Refused?
              && out.reply == [FaceOf(out.d).state] && FaceOf(out.d) == AfterPoll(FaceOf(d), Found(d, restart))
              && (var s := out.reply[0]; s != 3 && s != 4 && s != 6 ==> out.reply[0] == status.reply[4])
  {
    hide Poll, StatusReply, Found, AfterPoll;
    PollFollows(d, restart);
    var p := Poll(d, restart).0;
    Numbers(p.state);
    StatusWire(AdvanceForStatus(p));
  }

  // --- Over whole runs -------------------------------------------------------------

  /** A GETSTATUS whose poll finds a failed update, in any run, answers errVERIFY (7) and dfuERROR (10). */
  lemma FailureReadsAsVerify(c: Config, inputs: seq<Input>, restart: bool)
    ensures var d := Run(Fresh(c), inputs);
            var out := Step(d, GetStatus, restart);
            !Poll(d, restart).1.Refused? && Found(d, restart) == Some(Failure) ==> out.reply[0] == 0x07 && out.reply[4] == 10
  {
    hide Run, Step, Poll, Found;
    var d := Run(Fresh(c), inputs);
    StepFollows(d, GetStatus, restart);
    GetStatusShows(d, restart);
    NotRefused(d, restart);
  }

  lemma NotRefused(d: Handler, restart: bool)
    ensures !Poll(d, restart).1.Refused? ==> !Step(d, GetStatus, restart).note.Refused? && |Step(d, GetStatus, restart).reply| == 6
  {
    hide Poll, StatusReply;
  }

  /**
   A request the handler does not know, or a block sent over a held one, in any run: the GETSTATUS after it
   answers errSTALLEDPKT (15) and dfuERROR (10), unless its own poll finds a failed update.
   */
  lemma RefusalReadsAsStalled(c: Config, inputs: seq<Input>, req: Request, restart: bool, again: bool)
    ensures var first := Step(Run(Fresh(c), inputs), req, restart);
            var out := Step(first.d, GetStatus, again);
            (((req.OtherOut? || req.OtherIn?) && !Poll(Run(Fresh(c), inputs), restart).1.Refused?) || first.note.Violation?) &&
            !Poll(first.d, again).1.Refused? && Found(first.d, again) != Some(Failure) ==>
              out.reply[0] == 0x0F && out.reply[4] == 10
  {
    hide Run, Step, Poll, Found;
    var d := Run(Fresh(c), inputs);
    var first := Step(d, req, restart).d;
    StepFollows(d, req, restart);
    ViolationIsDnload(d, req, restart);
    StepFollows(first, GetStatus, again);
    GetStatusShows(first, again);
    NotRefused(first, again);
  }

  lemma ViolationIsDnload(d: Handler, req: Request, restart: bool)
    ensures Step(d, req, restart).note.Violation? ==> FaceOf(Step(d, req, restart).d) == STALLED
  {
    hide Poll, SubmitChunk, PushPending, HasValidSuffix, Crc32.Update, StatusReply;
    if req.Reset? { ServeStalls(d, req, restart); } else { ServeStalls(Poll(d, restart).0, req, restart); }
  }

  lemma ServeStalls(d: Handler, req: Request, restart: bool)
    ensures Serve(d, req, restart).note.Violation? ==> FaceOf(Serve(d, req, restart).d) == STALLED
  {
    hide PushPending, HasValidSuffix, Crc32.Update, StatusReply;
  }

  /** In a run that nothing disturbs, GETSTATUS answers OK (0) in byte 0. */
  lemma CleanRunReadsOk(c: Config, inputs: seq<Input>, restart: bool)
    requires CleanRun(Fresh(c), inputs)
    ensures var out := Step(Run(Fresh(c), inputs), GetStatus, restart);
            out.note.Fine? ==> out.reply[0] == 0x00
  {
    hide Run, Step, CleanRun;
    var d := Run(Fresh(c), inputs);
    CleanIsOk(c, inputs);
    FineKeepsOk(d, GetStatus, restart);
    GetStatusShows(d, restart);
  }

  lemma {:induction false} CleanIsOk(c: Config, inputs: seq<Input>)
    requires CleanRun(Fresh(c), inputs)
    ensures Run(Fresh(c), inputs).status.Ok?
    decreases |inputs|
  {
    hide Step;
    if inputs != [] {
      var front, i := inputs[..|inputs| - 1], inputs[|inputs| - 1];
      CleanIsOk(c, front);
      if i.Req? { FineKeepsOk(Run(Fresh(c), front), i.req, i.restart); }
    }
  }

  lemma FineKeepsOk(d: Handler, req: Request, restart: bool)
    requires d.status.Ok?
    ensures Step(d, req, restart).note.Fine? ==> Step(d, req, restart).d.status.Ok?
  {
    hide PushPending, HasValidSuffix, Crc32.Update, StatusReply, PollStatus;
    PushStatus(d, restart);
    if !req.Reset? { ServeOk(Poll(d, restart).0, req, restart); }
  }

  lemma PushStatus(d: Handler, restart: bool)
    ensures PushPending(d, restart).0.status == d.status
  {
    hide TrySend;
  }

  lemma ServeOk(d: Handler, req: Request, restart: bool)
    ensures d.status.Ok? && Serve(d, req, restart).note.Fine? ==> Serve(d, req, restart).d.status.Ok?
  {
    hide TrySend, HasValidSuffix, Crc32.Update, StatusReply;
  }

  /**
   A manifesting handler, in any run: GETSTATUS answers OK, dfuMANIFEST (7) and 100 ms while the status task has
   not settled; OK and dfuIDLE (2) once it has settled on success; errVERIFY (7) and dfuERROR (10) once it has
   settled on failure.
   */
  lemma ManifestReads(c: Config, inputs: seq<Input>, restart: bool)
    ensures var d := Run(Fresh(c), inputs);
            var r := Verdicts.DfuRuling(c, inputs);
            var out := Step(d, GetStatus, restart);
            d.state.Manifest? && d.sink.Opened() ==>
              && |out.reply| == 6
              && (r == None ==>
                    out.reply[0] == 0x00 && out.reply[4] == 7
                    && Wait(out.reply) == 100)
              && (r == Some(Success) ==> out.reply[0] == 0x00 && out.reply[4] == 2)
              && (r == Some(Failure) ==> out.reply[0] == 0x07 && out.reply[4] == 10)
  {
    hide Run, Step, Poll, Verdicts.DfuRuling, Found, FaceOf, AdvanceForStatus, PollTimeout, Wait;
    var d := Run(Fresh(c), inputs);
    if d.state.Manifest? && d.sink.Opened() {
      Verdicts.DfuTellsTheVerdict(c, inputs, restart);
      ManifestPolls(d, restart);
      StatusMoves(d, restart);
      AdvanceShows(Poll(d, restart).0);
      BusyWait(d.config.pollTimeoutMs);
      WorkingIsOk(c, inputs);
      ManifestFace(d);
      NotRefused(d, restart);
      GetStatusShows(d, restart);
    }
  }

  /** GETSTATUS is the poll, and then the moves out of dfuDNLOAD-SYNC, dfuDNBUSY and dfuMANIFEST-SYNC. */
  lemma StatusMoves(d: Handler, restart: bool)
    ensures !Poll(d, restart).1.Refused? ==>
              Step(d, GetStatus, restart).d == AdvanceForStatus(Poll(d, restart).0) && Step(d, GetStatus, restart).note == Poll(d, restart).1
  {
    hide Poll, StatusReply, AdvanceForStatus;
  }

  lemma ManifestFace(d: Handler)
    ensures FaceOf(d).status == StatusCode(d.status) && (d.state.Manifest? ==> FaceOf(d).state == 7)
  {
  }

  lemma BusyWait(configured: nat)
    ensures PollTimeout(7, configured) == 100
  {
  }

  /** In every run, a device that downloads or manifests reports no error. */
  lemma {:induction false} WorkingIsOk(c: Config, inputs: seq<Input>)
    ensures var f := FaceOf(Run(Fresh(c), inputs)); 3 <= f.state <= 7 ==> f.status == 0x00
    decreases |inputs|
  {
    hide Step, FaceOf;
    if inputs == [] {
      FreshFace(c);
    } else {
      var front, i := inputs[..|inputs| - 1], inputs[|inputs| - 1];
      WorkingIsOk(c, front);
      var d := Run(Fresh(c), front);
      match i
      case Req(req, restart) => StepKeepsOk(d, req, restart);
      case Env(move) => MoveKeepsFace(d, move);
    }
  }

  lemma FreshFace(c: Config)
    ensures FaceOf(Fresh(c)) == FRESH
  {
  }

  lemma MoveKeepsFace(d: Handler, move: Move)
    ensures FaceOf(d.(sink := Do(d.sink, move))) == FaceOf(d)
  {
  }

  lemma StepKeepsOk(d: Handler, req: Request, restart: bool)
    requires 3 <= FaceOf(d).state <= 7 ==> FaceOf(d).status == 0x00
    ensures var f := FaceOf(Step(d, req, restart).d); 3 <= f.state <= 7 ==> f.status == 0x00
  {
    hide Step, Poll, FaceOf, Found;
    StepFollows(d, req, restart);
  }

  /** GETSTATUS after a block, in any run: OK, and dfuDNLOAD-IDLE (5) without a wait or dfuDNBUSY (4) with 100 ms, by whether one is held. */
  lemma StatusTellsHeld(c: Config, inputs: seq<Input>, restart: bool)
    ensures var d := Run(Fresh(c), inputs);
            var out := Step(d, GetStatus, restart);
            (d.state.DnloadSync? || d.state.DnBusy?) && !out.note.SwFailed? ==>
              && |out.reply| == 6 && out.reply[0] == 0x00
              && (out.reply[4] == 5 <==> out.d.pending.None?)
              && (out.reply[4] == 4 <==> out.d.pending.Some?)
              && Wait(out.reply) == if out.d.pending.None? then 0 else 100
  {
    hide Run, Step, Poll, FaceOf, Wait;
    RunKeepsHeld(c, inputs);
    WorkingIsOk(c, inputs);
    var d := Run(Fresh(c), inputs);
    if d.state.DnloadSync? || d.state.DnBusy? {
      BlockPolls(d, restart);
      NotRefused(d, restart);
      GetStatusShows(d, restart);
      StatusMoves(d, restart);
    }
  }

  lemma BlockPolls(d: Handler, restart: bool)
    requires Held(d) && (d.state.DnloadSync? || d.state.DnBusy?)
    ensures !Poll(d, restart).1.Refused?
    ensures var (p, note) := Poll(d, restart);
            !note.SwFailed? ==>
              var e := AdvanceForStatus(p);
              && p.status == d.status && FaceOf(e) == Face(FaceOf(d).status, if e.pending.None? then 5 else 4)
              && FaceOf(d).state in {3, 4}
  {
    hide PushPending;
    PushKeepsHeld(d, restart);
    PushKeepsFace(d, restart);
    PushAccepted(d, restart);
  }

  lemma PushAccepted(d: Handler, restart: bool)
    requires Held(d)
    ensures PushPending(d, restart).1 && PushPending(d, restart).0.status == d.status
  {
    hide QueueCapacity;
  }

  lemma AdvanceShows(d: Handler)
    ensures d.state.Manifest? ==> FaceOf(AdvanceForStatus(d)).state == 7 && AdvanceForStatus(d).status == d.status
    ensures d.state.ManifestSync? && d.status.Ok? ==> FaceOf(AdvanceForStatus(d)) == FRESH
    ensures d.state.Error? && d.status.ErrVerify? ==> FaceOf(AdvanceForStatus(d)) == FAILED
    ensures FaceOf(AdvanceForStatus(d)).status == FaceOf(d).status == StatusCode(d.status)
  {
  }

  /** A poll that stays in Manifest keeps the status, and no poll of an opened transfer is refused. */
  lemma ManifestPolls(d: Handler, restart: bool)
    requires d.state.Manifest? && d.sink.Opened()
    ensures !Poll(d, restart).1.Refused?
    ensures Poll(d, restart).0.state.Manifest? ==> Poll(d, restart).0.status == d.status
  {
    hide QueueCapacity;
  }
}
