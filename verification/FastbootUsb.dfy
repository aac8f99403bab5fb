/** The fastboot function on USB bulk endpoints: the command handlers and the download state machine. */
module FastbootUsb {
  import opened ByteSeq
  import opened Proto
  import opened Swupdate
  import opened Dialog

  const RECV_BUFFER_SIZE: nat := 16 * 1024

  datatype Usb = Usb(
    info: Info,
    sink: Session,
    sessionOpen: bool,
    size: nat,                  // announced length of the current download
    done: nat,                  // bytes of it received
    pendingFlash: bool,
    finishPending: bool,
    failReply: Option<Reply>,   // set while a failed download is drained
    out: seq<Reply>,            // replies sent
    commands: seq<Bytes>)       // chunks given to the command parser
  {
    predicate Active() { done < size }

    function Remaining(): nat { if done <= size then size - done else 0 }
  }

  function Start(info: Info): Usb {
    Usb(info, New(RECV_BUFFER_SIZE), false, 0, 0, false, false, None, [], [])
  }

  function Say(u: Usb, r: Reply): Usb { u.(out := u.out + [r]) }

  function ResetState(u: Usb): Usb {
    u.(sink := New(RECV_BUFFER_SIZE), sessionOpen := false, size := 0, done := 0,
       pendingFlash := false, finishPending := false, failReply := None)
  }

  /** `reset`: the endpoint is cancelled, the session aborted and everything forgotten. */
  function HardReset(u: Usb, reply: Option<Reply>): Usb {
    var r := ResetState(u);
    if reply.Some? then Say(r, reply.value) else r
  }

  /** Marks the download failed; the announced bytes are still to be drained. */
  function FailDownload(u: Usb, reply: Reply): Usb {
    u.(sink := Swupdate.Abort(u.sink), failReply := Some(reply))
  }

  // --- Commands ---------------------------------------------------------------

  function Begin(u: Usb, restart: bool): (Usb, bool) {
    var (sink, ok) := Open(u.sink, restart);
    if ok then (u.(sink := sink), true) else (Say(u.(sink := sink), FailOpen), false)
  }

  function StartFinish(u: Usb): (Usb, bool) {
    if !u.sink.IsOpen() then (Say(u, FailClose), false)
    else (u.(sink := Eof(u.sink), finishPending := true), true)
  }

  function StartDownload(u: Usb, len: nat, kind: DownloadKind, restart: bool, headerSent: bool): (Usb, bool) {
    var (b, ok) := if u.sink.IsOpen() then (u, true) else Begin(u, restart);
    if !ok then (b, false)
    else if !headerSent then (HardReset(b, None), false)
    else
      var c := Say(b, Raw(DataHeader(len))).(size := len, done := 0, pendingFlash := kind.Fastboot? || !b.sessionOpen);
      (if len == 0 then Say(c, Okay) else c, true)
  }

  function FinishFlash(u: Usb): (Usb, bool) {
    if !u.pendingFlash then (Say(u, FailFlash), false)
    else if u.Active() then (Say(u, FailBadSize), false)
    else
      var (f, ok) := StartFinish(Say(u, InfoWait));
      if ok then (f, true) else (f.(pendingFlash := false), false)
  }

  function HandleCommand(u: Usb, c: Command, restart: bool, headerSent: bool): (Usb, bool) {
    match c
    case WOpen =>
      var (b, ok) := Begin(u, restart);
      if ok then (Say(b.(sessionOpen := true, pendingFlash := false), Okay), true) else (b, false)
    case GetVar(arg) => if arg in u.info.vars then (Say(u, Raw(u.info.vars[arg])), true) else (Say(u, FailCmd), false)
    case Fetch(_) => (Say(Say(Say(u, Raw(DataHeader(|u.info.sysinfo|))), Raw(u.info.sysinfo)), Okay), true)
    case FetchUnknownPart => (Say(u, FailUnknownPart), false)
    case Download(len, kind) => StartDownload(u, len, kind, restart, headerSent)
    case Flash => FinishFlash(u)
    case Close => StartFinish(u)
    case Unsupported => (Say(u, FailCmd), false)
  }

  // --- Receive completions --------------------------------------------------------

  /** One piece of download data. */
  function DownloadChunk(u: Usb, chunk: Bytes, restart: bool): Usb {
    if chunk == [] then u
    else if u.failReply.Some? then
      var d := u.(done := u.done + |chunk|);
      if d.Active() then d else ResetState(Say(d, u.failReply.value))
    else
      var (sink, feed) := TrySend(u.sink, chunk, restart);
      match feed
      case FeedFull(_) => u
      case FeedError =>
        var f := FailDownload(u.(sink := sink, done := u.done + |chunk|), FailEpipe);
        if f.Active() then f else ResetState(Say(f, FailEpipe))
      case _ =>
        var d := u.(sink := sink, done := u.done + |chunk|);
        if d.Active() then d else Say(d, Okay)
  }

  /** One bulk-OUT completion. */
  function RxChunk(u: Usb, chunk: Bytes, restart: bool, headerSent: bool): Usb {
    if !u.Active() then
      var v := u.(commands := u.commands + [chunk]);
      var parsed := ParseCommand(chunk);
      if parsed.None? then v
      else
        var (w, handled) := HandleCommand(v, parsed.value.0, restart, headerSent);
        if handled && w.Active() && parsed.value.1 < |chunk| then DownloadChunk(w, chunk[parsed.value.1..], restart) else w
    else if |chunk| <= u.Remaining() then DownloadChunk(u, chunk, restart)
    else
      var v := DownloadChunk(u, chunk[..u.Remaining()], restart);
      if v.Active() then v else DownloadChunk(v, chunk[u.Remaining()..], restart)
  }

  /** Background tasks move while the function is suspended. */
  function After(u: Usb, ms: seq<Move>): Usb { u.(sink := DoAll(u.sink, ms)) }

  /** A receive completion whose feeds may have to wait: `w1` and `w2` are the moves made meanwhile. */
  function RxWaiting(u: Usb, chunk: Bytes, restart: bool, headerSent: bool, w1: seq<Move>, w2: seq<Move>): Usb {
    if !u.Active() then
      var v := u.(commands := u.commands + [chunk]);
      var parsed := ParseCommand(chunk);
      if parsed.None? then v
      else
        var (w, handled) := HandleCommand(v, parsed.value.0, restart, headerSent);
        if handled && w.Active() && parsed.value.1 < |chunk| then
          DownloadChunk(After(w, w1), chunk[parsed.value.1..], restart)
        else w
    else if |chunk| <= u.Remaining() then DownloadChunk(After(u, w1), chunk, restart)
    else
      var v := DownloadChunk(After(u, w1), chunk[..u.Remaining()], restart);
      if v.Active() then v else DownloadChunk(After(v, w2), chunk[u.Remaining()..], restart)
  }

  /** Without waiting this is the step of the state machine. */
  lemma NoWaiting(u: Usb, chunk: Bytes, restart: bool, headerSent: bool)
    ensures RxWaiting(u, chunk, restart, headerSent, [], []) == RxChunk(u, chunk, restart, headerSent)
  {
    hide DownloadChunk, HandleCommand, ParseCommand;
    forall x: Usb ensures After(x, []) == x { }
  }

  /** The look at SWUpdate before each read is primed. */
  function CheckFailed(u: Usb): Usb {
    if u.finishPending || !u.Active() || u.failReply.Some? || !u.sink.IsOpen() then u
    else
      var (sink, verdict) := PollStatus(u.sink);
      if verdict == Some(Failure) then FailDownload(u.(sink := sink), FailEpipe) else u.(sink := sink)
  }

  /** The verdict of a finished transfer, once there is one. */
  function Finish(u: Usb): Usb {
    match PollStatus(u.sink).1
    case None => u
    case Some(v) => Say(ResetState(u), if v.Success? then Okay else FailClose)
  }

  datatype Input =
    | Env(move: Move)
    | Check
    | Recv(chunk: Bytes, restart: bool, headerSent: bool)
    | Finished
    | Stalled            // five seconds without data
    | Broken             // unrecoverable receive error
    | Gone               // transport closed, function disabled or control loop ended

  /** A receive completion is only taken when no verdict is awaited, and a full queue suspends it. */
  predicate Ready(u: Usb, i: Input) {
    match i
    case Recv(chunk, _, _) => !u.finishPending && !(u.failReply.None? && u.sink.Full() && MayFeed(u, chunk))
    case Finished => u.finishPending && PollStatus(u.sink).1.Some?
    case Stalled => !u.finishPending
    case Broken => !u.finishPending
    case _ => true
  }

  /** The completion carries download data, perhaps behind the command that announces it. */
  predicate MayFeed(u: Usb, chunk: Bytes) {
    u.Active() ||
    (ParseCommand(chunk).Some? && ParseCommand(chunk).value.0.Download? && ParseCommand(chunk).value.1 < |chunk|)
  }

  function Take(u: Usb, i: Input): Usb {
    match i
    case Env(m) => u.(sink := Do(u.sink, m))
    case Check => CheckFailed(u)
    case Recv(chunk, restart, headerSent) => RxChunk(u, chunk, restart, headerSent)
    case Finished => Finish(u)
    case Stalled => if u.Active() || u.pendingFlash || u.finishPending then HardReset(u, Some(FailBadSize)) else u
    case Broken => HardReset(u, Some(FailBadSize))
    case Gone => HardReset(u, None)
  }

  predicate CanRunUsb(u: Usb, inputs: seq<Input>)
    decreases |inputs|
  {
    inputs == [] || (Ready(u, inputs[0]) && CanRunUsb(Take(u, inputs[0]), inputs[1..]))
  }

  function RunUsb(u: Usb, inputs: seq<Input>): Usb
    decreases |inputs|
  {
    if inputs == [] then u else RunUsb(Take(u, inputs[0]), inputs[1..])
  }

  // --- Read sizes -------------------------------------------------------------------

  /** Length of the next bulk-OUT read. */
  function RecvCapacity(size: nat, done: nat, mps: nat): nat {
    if done >= size then RECV_BUFFER_SIZE
    else
      var m := if mps > 1 then mps else 1;
      DivCeil(Min(size - done, RECV_BUFFER_SIZE), m) * m
  }
}
