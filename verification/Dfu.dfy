/** The DFU 1.1 state machine driven from endpoint zero (states and status of section 6.1.2 of USB DFU 1.1). */
module Dfu {
  import opened ByteSeq
  import opened Swupdate
  import Crc32

  const SUFFIX_LEN: nat := 16
  const BUSY_POLL_MS: nat := 100
  const MANIFEST_POLL_MS: nat := 100

  datatype State =
    | AppIdle | AppDetach | DfuIdle | DnloadSync | DnBusy | DnloadIdle
    | ManifestSync | Manifest | ManifestWaitReset | UploadIdle | Error

  datatype Status = Ok | ErrVerify | ErrStalledPkt

  function StateCode(s: State): byte {
    match s
    case AppIdle => 0 case AppDetach => 1 case DfuIdle => 2 case DnloadSync => 3
    case DnBusy => 4 case DnloadIdle => 5 case ManifestSync => 6 case Manifest => 7
    case ManifestWaitReset => 8 case UploadIdle => 9 case Error => 10
  }

  function StatusCode(s: Status): byte {
    match s case Ok => 0x00 case ErrVerify => 0x07 case ErrStalledPkt => 0x0f
  }

  datatype Config = Config(transferSize: nat, pollTimeoutMs: nat, upload: Option<Bytes>)

  datatype Handler = Handler(
    config: Config,
    tail: Bytes,              // the withheld last bytes of the file so far
    crc: nat,                // hash of everything before the tail
    sink: Session,
    pending: Option<Bytes>,   // a block the queue had no room for
    state: State,
    status: Status)

  function Fresh(c: Config): Handler {
    Handler(c, [], Crc32.INIT, New(c.transferSize), None, DfuIdle, Ok)
  }

  function PendingBytes(d: Handler): Bytes {
    if d.pending.Some? then d.pending.value else []
  }

  predicate IsFinishing(s: State) { s.Manifest? || s.ManifestSync? }

  /** The 16-byte suffix of Appendix B of USB DFU 1.1, checked against the hash of what precedes it. */
  predicate HasValidSuffix(prefix: nat, buf: Bytes) {
    && |buf| == SUFFIX_LEN
    && buf[8..11] == [0x55, 0x46, 0x44]   // "UFD"
    && buf[11] == SUFFIX_LEN
    && Crc32.Not(Crc32.Finalize(Crc32.Update(prefix, buf[..12]))) == LeValue(buf[12..])
  }

  /** How a step ended: `SwFailed` reports a SWUpdate failure, `Violation` the sequencing abort. */
  datatype Note = Fine | Refused | SwFailed | Violation

  datatype Out = Out(d: Handler, note: Note, reply: Bytes)

  /** Gives the held block one try at the queue; signals end of stream once nothing is held in Manifest. */
  function PushPending(d: Handler, restart: bool): (r: (Handler, bool)) {
    if d.pending.None? then (SignalEof(d), true)
    else
      var (sink, feed) := TrySend(d.sink, d.pending.value, restart);
      match feed
      case FeedFull(_) => (d.(sink := sink), true)
      case FeedError => (d.(sink := sink, pending := None), false)
      case _ => (SignalEof(d.(sink := sink, pending := None)), true)
  }

  function SignalEof(d: Handler): Handler {
    if d.state.Manifest? then d.(sink := Eof(d.sink)) else d
  }

  function Poll(d0: Handler, restart: bool): (r: (Handler, Note))
    ensures !r.1.Violation?
  {
    var (d, ok) := PushPending(d0, restart);
    if !ok then (d, Refused)
    else if !d.state.Manifest? && !d.sink.IsOpen() then (d, Fine)
    else
      var (sink, verdict) := PollStatus(d.sink);
      var idle := d.(crc := Crc32.INIT, sink := New(d.config.transferSize), pending := None);
      if verdict == Some(Failure) then (idle.(state := Error, status := ErrVerify), SwFailed)
      else if verdict == Some(Success) && d.state.Manifest? then (idle.(state := ManifestSync, status := Ok), Fine)
      else (d.(sink := sink), Fine)
  }

  function SubmitChunk(d: Handler, chunk: Bytes, restart: bool): (Handler, Note) {
    if d.pending.Some? then
      (Fresh(d.config).(state := Error, status := ErrStalledPkt), Violation)
    else
      var (d', ok) := PushPending(d.(pending := Some(chunk)), restart);
      (d', if ok then Fine else Refused)
  }

  /** Appends a received block and flushes all but the last `SUFFIX_LEN` bytes. */
  function TakeBlock(d: Handler, data: Bytes, restart: bool): (Handler, Note) {
    var buf := d.tail + data;
    var d1 := d.(state := DnloadSync, status := Ok);
    if |buf| <= SUFFIX_LEN then (d1.(tail := buf), Fine)
    else
      var flush := |buf| - SUFFIX_LEN;
      SubmitChunk(d1.(tail := buf[flush..], crc := Crc32.Update(d.crc, buf[..flush])), buf[..flush], restart)
  }

  function StartManifest(d: Handler, restart: bool): (Handler, Note) {
    var d1 := d.(state := Manifest, status := Ok, tail := []);
    if d.tail == [] || HasValidSuffix(d.crc, d.tail) then
      var (d2, ok) := PushPending(d1, restart);
      (d2, if ok then Fine else Refused)
    else SubmitChunk(d1, d.tail, restart)
  }

  function ClearStatus(d: Handler): Handler {
    if d.state.Error? || IsFinishing(d.state) then Fresh(d.config)
    else d.(status := Ok, state := DfuIdle, tail := [], crc := Crc32.INIT)
  }

  function AdvanceForStatus(d: Handler): Handler {
    match d.state
    case DnloadSync => d.(state := if d.pending.Some? then DnBusy else DnloadIdle)
    case DnBusy => d.(state := if d.pending.Some? then DnBusy else DnloadIdle)
    case ManifestSync => d.(state := DfuIdle)
    case _ => d
  }

  /** The six bytes of DFU_GETSTATUS. */
  function StatusReply(d: Handler): (r: Bytes)
    ensures |r| == 6
  {
    var ms := match d.state
      case DnloadIdle => 0
      case DnBusy => BUSY_POLL_MS
      case Manifest => MANIFEST_POLL_MS
      case ManifestSync => MANIFEST_POLL_MS
      case _ => d.config.pollTimeoutMs;
    [StatusCode(d.status)] + LeBytes(ms, 3) + [StateCode(d.state), 0]
  }

  /** wValue of a request. */
  type BlockNumber = n: int | 0 <= n < 0x1_0000

  function UploadBlock(d: Handler, n: BlockNumber): Out {
    if d.config.upload.None? then Out(d, Refused, [])
    else
      var data := d.config.upload.value;
      var ts := d.config.transferSize;
      var start := Min(n * ts, |data|);
      var block := data[start..Min(start + ts, |data|)];
      Out(d.(state := if |block| < ts then DfuIdle else UploadIdle), Fine, block)
  }

  datatype Request =
    | Dnload(data: Bytes, meanwhile: seq<Move>)   // non-empty wLength; what the data stage delivered, and the
                                                  // background moves made while it was awaited
    | DnloadLost(closed: bool)     // the data stage failed, `closed` when the transport is gone
    | DnloadEmpty                  // wLength = 0
    | Detach
    | ClrStatus
    | Abort
    | OtherOut
    | GetStatus
    | GetState
    | Upload(block: BlockNumber)
    | OtherIn
    | Reset                        // idle timeout, Disable, Unbind or transport closed

  /** The background tasks move while the handler is suspended. */
  function During(d: Handler, ms: seq<Move>): Handler { d.(sink := DoAll(d.sink, ms)) }

  function Fault(d: Handler): Handler { d.(state := Error, status := ErrStalledPkt) }

  /** The request proper, after the `poll` that precedes every one of them. */
  function Serve(d: Handler, req: Request, restart: bool): Out {
    match req
    case Dnload(data, ms) =>
      if IsFinishing(d.state) then Out(d, Refused, [])
      else var (d1, note) := TakeBlock(During(d, ms), data, restart); Out(d1, note, [])
    case DnloadLost(closed) =>
      if IsFinishing(d.state) then Out(d, Refused, [])
      else if closed then Out(Fresh(d.config), Fine, [])
      else Out(d, Refused, [])
    case DnloadEmpty => var (d1, note) := StartManifest(d, restart); Out(d1, note, [])
    case Detach => Out(d.(state := AppDetach), Fine, [])
    case ClrStatus => Out(ClearStatus(d), Fine, [])
    case Abort => Out(Fresh(d.config), Fine, [])
    case OtherOut => Out(Fault(d), Refused, [])
    case GetStatus => var d1 := AdvanceForStatus(d); Out(d1, Fine, StatusReply(d1))
    case GetState => Out(d, Fine, [StateCode(d.state)])
    case Upload(n) => UploadBlock(d, n)
    case OtherIn => Out(Fault(d), Refused, [])
    case Reset => Out(Fresh(d.config), Fine, [])
  }

  /** A whole request.  A failure found by the poll does not stop the request that found it. */
  function Step(d: Handler, req: Request, restart: bool): Out {
    if req.Reset? then Serve(d, req, restart)
    else
      var (d1, note) := Poll(d, restart);
      if note.Refused? then Out(d1, Refused, [])
      else
        var out := Serve(d1, req, restart);
        if note.SwFailed? then out.(note := SwFailed) else out
  }

  datatype Input = Req(req: Request, restart: bool) | Env(move: Move)

  function Take(d: Handler, i: Input): Out {
    match i
    case Req(req, restart) => Step(d, req, restart)
    case Env(move) => Out(d.(sink := Do(d.sink, move)), Fine, [])
  }

  function Run(d: Handler, inputs: seq<Input>): Handler
    decreases |inputs|
  {
    if inputs == [] then d else Take(Run(d, inputs[..|inputs| - 1]), inputs[|inputs| - 1]).d
  }

  /** Everything the host sent in data stages, in order. */
  function Payload(inputs: seq<Input>): Bytes
    decreases |inputs|
  {
    if inputs == [] then []
    else
      var i := inputs[|inputs| - 1];
      Payload(inputs[..|inputs| - 1]) + if i.Req? && i.req.Dnload? then i.req.data else []
  }
}
