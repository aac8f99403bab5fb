/**
 The fastboot conversation as a host sees it, independent of the transport: the reference that both the USB
 and the TCP implementation are compared with.
 */
module Dialog {
  import opened ByteSeq
  import opened Proto
  import opened Swupdate

  datatype Reply =
    | Okay | FailBadSize | FailClose | FailCmd | FailEpipe | FailFlash | FailNotOpen | FailOpen
    | FailUnknownPart | InfoWait | Raw(data: Bytes)

  /** What the device reports about itself: the variables it exposes and the system-information document. */
  datatype Info = Info(vars: map<Bytes, Bytes>, sysinfo: Bytes)

  datatype State = State(
    open: bool,        // a SWUpdate transfer is running
    wopen: bool,       // it was opened by WOpen
    flash: bool,       // a download waits for `flash`
    remaining: nat,    // announced bytes still to come
    finishing: bool,   // the verdict is awaited
    stream: Bytes)     // bytes handed to the running transfer

  const START: State := State(false, false, false, 0, false, [])

  datatype Event =
    | Cmd(command: Command, restart: bool)
    | Data(bytes: Bytes)
    | Verdict(verdict: Swupdate.Verdict)

  predicate Legal(d: State, e: Event) {
    match e
    case Cmd(_, _) => d.remaining == 0 && !d.finishing
    case Data(b) => 0 < |b| <= d.remaining
    case Verdict(_) => d.finishing
  }

  /** Opens the transfer unless one is running; a pending restart refuses new ones. */
  function Opened(d: State): State {
    if d.open then d else d.(open := true, stream := [])
  }

  function FinishReplies(d: State): (State, seq<Reply>) {
    if !d.open then (d.(flash := false), [FailClose]) else (d.(finishing := true), [])
  }

  function OnCommand(info: Info, d: State, c: Command, restart: bool): (State, seq<Reply>) {
    match c
    case WOpen =>
      if !d.open && restart then (d, [FailOpen])
      else (Opened(d).(wopen := true, flash := false), [Okay])
    case GetVar(arg) => (d, [if arg in info.vars then Raw(info.vars[arg]) else FailCmd])
    case Fetch(_) => (d, [Raw(DataHeader(|info.sysinfo|)), Raw(info.sysinfo), Okay])
    case FetchUnknownPart => (d, [FailUnknownPart])
    case Download(len, kind) =>
      if !d.open && restart then (d, [FailOpen])
      else
        (Opened(d).(flash := kind.Fastboot? || !d.wopen, remaining := len),
         [Raw(DataHeader(len))] + if len == 0 then [Okay] else [])
    case Flash =>
      if !d.flash then (d, [FailFlash])
      else var (e, replies) := FinishReplies(d); (e, [InfoWait] + replies)
    case Close => FinishReplies(d)
    case Unsupported => (d, [FailCmd])
  }

  function Step(info: Info, d: State, e: Event): (State, seq<Reply>)
    requires Legal(d, e)
  {
    match e
    case Cmd(c, restart) => OnCommand(info, d, c, restart)
    case Data(b) =>
      (d.(remaining := d.remaining - |b|, stream := d.stream + b), if |b| == d.remaining then [Okay] else [])
    case Verdict(v) => (START, [if v.Success? then Okay else FailClose])
  }

  predicate LegalRun(info: Info, d: State, es: seq<Event>)
    decreases |es|
  {
    es == [] || (Legal(d, es[0]) && LegalRun(info, Step(info, d, es[0]).0, es[1..]))
  }

  /** Final state, replies in order, and every byte handed to any transfer, in order. */
  function Converse(info: Info, d: State, es: seq<Event>): (State, seq<Reply>, Bytes)
    requires LegalRun(info, d, es)
    decreases |es|
  {
    if es == [] then (d, [], [])
    else
      var (d1, now) := Step(info, d, es[0]);
      var (d2, later, bytes) := Converse(info, d1, es[1..]);
      (d2, now + later, (if es[0].Data? then es[0].bytes else []) + bytes)
  }

  /** Joins neighbouring pieces of data. */
  function Merge(es: seq<Event>): seq<Event>
    decreases |es|
  {
    if |es| < 2 then es
    else if es[0].Data? && es[1].Data? then Merge([Data(es[0].bytes + es[1].bytes)] + es[2..])
    else [es[0]] + Merge(es[1..])
  }

  lemma ConverseNothing(info: Info, d: State)
    ensures LegalRun(info, d, []) && Converse(info, d, []) == (d, [], [])
  {
  }

  /** A conversation is its first event followed by the rest. */
  lemma Unfold(info: Info, d: State, es: seq<Event>)
    requires es != []
    ensures LegalRun(info, d, es) <==> Legal(d, es[0]) && LegalRun(info, Step(info, d, es[0]).0, es[1..])
    ensures LegalRun(info, d, es) ==>
              var d1 := Step(info, d, es[0]);
              var r := Converse(info, d1.0, es[1..]);
              Converse(info, d, es) == (r.0, d1.1 + r.1, (if es[0].Data? then es[0].bytes else []) + r.2)
  {
    hide Step, Legal;
  }

  /** What a transfer that stood at `before` was handed to stand at `after`; a new transfer starts from nothing. */
  function Gained(before: Bytes, after: Bytes): Bytes {
    if before <= after then after[|before|..] else after
  }

  /** Only data is handed to a transfer, and all of it. */
  lemma StepGains(info: Info, d: State, e: Event)
    requires Legal(d, e) && (!d.open ==> d.stream == [])
    ensures Gained(d.stream, Step(info, d, e).0.stream) == if e.Data? then e.bytes else []
  {
    hide DataHeader;
  }

  lemma EventGains(info: Info, d: State, es: seq<Event>)
    requires |es| <= 1 && LegalRun(info, d, es) && (!d.open ==> d.stream == [])
    ensures Gained(d.stream, Converse(info, d, es).0.stream) == Converse(info, d, es).2
  {
    hide Step, Legal;
    if es != [] {
      StepGains(info, d, es[0]);
      assert es[1..] == [] && Converse(info, d, es).2 == (if es[0].Data? then es[0].bytes else []) + [];
    }
  }

  lemma JoinTwo(info: Info, d: State, x: Bytes, y: Bytes)
    requires Legal(d, Data(x)) && Legal(Step(info, d, Data(x)).0, Data(y))
    ensures Legal(d, Data(x + y))
    ensures var d1 := Step(info, d, Data(x));
            var d2 := Step(info, d1.0, Data(y));
            Step(info, d, Data(x + y)) == (d2.0, d1.1 + d2.1)
  {
    assert d.stream + x + y == d.stream + (x + y);
    var d1 := Step(info, d, Data(x));
    var d2 := Step(info, d1.0, Data(y));
    assert d1.1 == [] && [] + d2.1 == d2.1;
    assert |x + y| == |x| + |y|;
  }

  /** The conversation does not depend on how data was cut into pieces. */
  lemma {:induction false} MergeKeepsConversation(info: Info, d: State, es: seq<Event>)
    requires LegalRun(info, d, es)
    ensures LegalRun(info, d, Merge(es)) && Converse(info, d, Merge(es)) == Converse(info, d, es)
    decreases |es|
  {
    hide Step, Legal, LegalRun, Converse;
    if |es| < 2 {
    } else if es[0].Data? && es[1].Data? {
      var x, y := es[0].bytes, es[1].bytes;
      var rest := es[2..];
      assert es[1..][1..] == rest && es[1..][0] == es[1];
      Unfold(info, d, es);
      var d1 := Step(info, d, es[0]);
      Unfold(info, d1.0, es[1..]);
      var d2 := Step(info, d1.0, es[1]);
      JoinTwo(info, d, x, y);
      var joined := [Data(x + y)] + rest;
      assert joined[0] == Data(x + y) && joined[1..] == rest;
      Unfold(info, d, joined);
      MergeKeepsConversation(info, d, joined);
      var tail := Converse(info, d2.0, rest);
      assert d1.1 + (d2.1 + tail.1) == (d1.1 + d2.1) + tail.1;
      assert x + (y + tail.2) == (x + y) + tail.2;
    } else {
      Unfold(info, d, es);
      MergeKeepsConversation(info, Step(info, d, es[0]).0, es[1..]);
      var merged := [es[0]] + Merge(es[1..]);
      assert merged[1..] == Merge(es[1..]);
      Unfold(info, d, merged);
    }
  }
}
