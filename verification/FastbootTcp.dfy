/** The fastboot service over TCP: one command per frame, and a pump that feeds a download into SWUpdate. */
module FastbootTcp {
  import opened ByteSeq
  import opened Proto
  import opened Swupdate
  import opened Dialog

  const RECV_BUFFER_SIZE: nat := 128 * 1024

  datatype Pc =
    | Commands
    | Streaming(remaining: nat, forwarding: bool)   // inside the data phase
    | Feeding(block: Bytes, remaining: nat)         // a block waits for a slot in the queue
    | Awaiting(remaining: nat)                      // the queue was closed; the verdict is awaited
    | Finishing                                     // end of stream signalled; the verdict is awaited
    | Dropped                                       // connection closed after a fatal error

  datatype Tcp = Tcp(
    info: Info, sink: Session, sessionOpen: bool, pendingFlash: bool, pc: Pc, out: seq<Reply>)

  function Start(info: Info): Tcp {
    Tcp(info, New(RECV_BUFFER_SIZE), false, false, Commands, [])
  }

  function Say(t: Tcp, r: Reply): Tcp { t.(out := t.out + [r]) }

  function Drop(t: Tcp): Tcp { t.(sink := Swupdate.Abort(t.sink), pc := Dropped) }

  function FinishDownload(t: Tcp): Tcp {
    if !t.sink.IsOpen() then Say(t.(pendingFlash := false), FailClose)
    else t.(sink := Eof(t.sink), pc := Finishing)
  }

  function HandleDownload(t: Tcp, len: nat, kind: DownloadKind, restart: bool): Tcp {
    var (sink, ok) := if t.sink.IsOpen() then (t.sink, true) else Open(t.sink, restart);
    if !ok then Say(t.(sink := sink), FailOpen)
    else
      var a := Say(t.(sink := sink), Raw(DataHeader(len))).(pendingFlash := kind.Fastboot? || !t.sessionOpen);
      if len == 0 then Say(a, Okay) else a.(pc := Streaming(len, true))
  }

  function Dispatch(t: Tcp, c: Command, restart: bool): Tcp {
    match c
    case WOpen =>
      var (sink, ok) := Open(t.sink, restart);
      if ok then Say(t.(sink := sink, sessionOpen := true, pendingFlash := false), Okay)
      else Say(t.(sink := sink), FailOpen)
    case GetVar(arg) => Say(t, if arg in t.info.vars then Raw(t.info.vars[arg]) else FailCmd)
    case Fetch(_) => Say(Say(Say(t, Raw(DataHeader(|t.info.sysinfo|))), Raw(t.info.sysinfo)), Okay)
    case FetchUnknownPart => Say(t, FailUnknownPart)
    case Download(len, kind) => HandleDownload(t, len, kind, restart)
    case Flash => if !t.pendingFlash then Say(t, FailFlash) else FinishDownload(Say(t, InfoWait))
    case Close => FinishDownload(t)
    case Unsupported => Say(t, FailCmd)
  }

  /** A command frame; one that does not parse is answered too. */
  function Frame(t: Tcp, cmd: Bytes, restart: bool): Tcp {
    var parsed := ParseCommand(cmd);
    if parsed.None? then Say(t, FailCmd) else Dispatch(t, parsed.value.0, restart)
  }

  /** The data phase goes on with `remaining` bytes, or is acknowledged. */
  function Continue(t: Tcp, remaining: nat, forwarding: bool): Tcp {
    if remaining == 0 then Say(t.(pc := Commands), Okay) else t.(pc := Streaming(remaining, forwarding))
  }

  /** SWUpdate reached a verdict inside the data phase. */
  function EarlyVerdict(t: Tcp, remaining: nat, v: Swupdate.Verdict): Tcp {
    if v.Success? then Continue(t, remaining, false) else Drop(Say(t, FailEpipe))
  }

  /** One block read in the data phase, and the look at SWUpdate that follows it. */
  function Block(t: Tcp, block: Bytes): Tcp
    requires t.pc.Streaming? && |block| <= t.pc.remaining
  {
    var left := t.pc.remaining - |block|;
    if !t.pc.forwarding then Continue(t, left, false)
    else
      var (polled, verdict) := if t.sink.IsOpen() then PollStatus(t.sink) else (t.sink, None);
      if verdict.Some? then EarlyVerdict(t.(sink := polled), left, verdict.value)
      else t.(sink := polled, pc := Feeding(block, left))
  }

  /** The block enters the queue, or finds it closed. */
  function FeedBlock(t: Tcp, restart: bool): Tcp
    requires t.pc.Feeding?
  {
    var (sink, feed) := TrySend(t.sink, t.pc.block, restart);
    match feed
    case FeedOk(_) => Continue(t.(sink := sink), t.pc.remaining, true)
    case FeedClosed => t.(sink := sink, pc := Awaiting(t.pc.remaining))
    case FeedFull(_) => t
    case FeedError => Drop(t.(sink := sink))
  }

  /** The awaited verdict, once there is one. */
  function Settled(t: Tcp): Tcp {
    var (sink, verdict) := PollStatus(t.sink);
    if verdict.None? then t
    else if t.pc.Awaiting? then EarlyVerdict(t.(sink := sink), t.pc.remaining, verdict.value)
    else
      Say(t.(sink := New(RECV_BUFFER_SIZE), sessionOpen := false, pendingFlash := false, pc := Commands),
          if verdict.value.Success? then Okay else FailClose)
  }

  datatype Input =
    | Env(move: Move)
    | Command(cmd: Bytes, restart: bool)
    | Data(block: Bytes)
    | Feed(restart: bool)
    | Finished
    | Lost            // transport error, timeout or protocol error

  predicate Ready(t: Tcp, i: Input) {
    match i
    case Env(_) => true
    case Command(_, _) => t.pc.Commands?
    case Data(block) => t.pc.Streaming? && 0 < |block| <= t.pc.remaining
    case Feed(_) => t.pc.Feeding? && !t.sink.Full()
    case Finished => (t.pc.Awaiting? || t.pc.Finishing?) && PollStatus(t.sink).1.Some?
    case Lost => !t.pc.Dropped?
  }

  function Take(t: Tcp, i: Input): Tcp
    requires Ready(t, i)
  {
    match i
    case Env(m) => t.(sink := Do(t.sink, m))
    case Command(cmd, restart) => Frame(t, cmd, restart)
    case Data(block) => Block(t, block)
    case Feed(restart) => FeedBlock(t, restart)
    case Finished => Settled(t)
    case Lost => Drop(t)
  }

  predicate CanRunTcp(t: Tcp, inputs: seq<Input>)
    decreases |inputs|
  {
    inputs == [] || (Ready(t, inputs[0]) && CanRunTcp(Take(t, inputs[0]), inputs[1..]))
  }

  function RunTcp(t: Tcp, inputs: seq<Input>): Tcp
    requires CanRunTcp(t, inputs)
    decreases |inputs|
  {
    if inputs == [] then t else RunTcp(Take(t, inputs[0]), inputs[1..])
  }
}
