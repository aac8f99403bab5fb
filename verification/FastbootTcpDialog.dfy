/** The TCP implementation follows the reference conversation, and therefore agrees with USB. */
module FastbootTcpDialog {
  import opened ByteSeq
  import opened Proto
  import opened Swupdate
  import opened Dialog
  import opened FastbootTcp
  import FastbootUsb
  import UsbDialog = FastbootUsbDialog

  ghost predicate Follows(t: Tcp, d: State) {
    && Inv(t.sink)
    && t.sessionOpen == d.wopen && t.pendingFlash == d.flash
    && (d.finishing <==> t.pc.Finishing?)
    && (d.remaining > 0 <==> t.pc.Streaming? || t.pc.Feeding?)
    && (t.pc.Streaming? ==> t.pc == Streaming(d.remaining, true))
    && (t.pc.Feeding? ==> |t.pc.block| > 0 && |t.pc.block| + t.pc.remaining == d.remaining)
    && (t.pc.Commands? || t.pc.Streaming? || t.pc.Feeding? || t.pc.Finishing?)
    && (d.finishing ==> d.open)
    && (!d.finishing ==> UsbDialog.Healthy(t.sink, d.open))
    && t.sink.Handed() == d.stream && (!d.open ==> d.stream == [])
    && (!d.open ==> !d.wopen && !d.flash && d.remaining == 0)
  }

  /** An input of an undisturbed run: parseable commands, no transport failure, no failure or verdict before the finish. */
  predicate Quiet(t: Tcp, i: Input) {
    Ready(t, i) &&
    match i
    case Env(m) => t.pc.Finishing? || !(m.ConnectErr? || m.WriteErr? || m.Settle?)
    case Command(cmd, _) => ParseCommand(cmd).Some?
    case Data(_) => true
    case Feed(_) => true
    case Finished => true
    case Lost => false
  }

  function EventOf(t: Tcp, i: Input): seq<Event>
    requires Quiet(t, i)
  {
    match i
    case Command(cmd, restart) => [Cmd(ParseCommand(cmd).value.0, restart)]
    case Feed(_) => [Event.Data(t.pc.block)]
    case Finished => [Verdict(PollStatus(t.sink).1.value)]
    case _ => []
  }

  lemma DownloadFollows(t: Tcp, d: State, len: nat, kind: DownloadKind, restart: bool)
    requires Follows(t, d) && t.pc.Commands?
    ensures var v := HandleDownload(t, len, kind, restart);
            var (e, rs) := OnCommand(t.info, d, Proto.Download(len, kind), restart);
            Follows(v, e) && v.out == t.out + rs && v.info == t.info
  {
    hide DataHeader, Inv, Open;
    UsbDialog.OpenStaysHealthy(t.sink, d.open, restart);
    UsbDialog.OpenWhenOpen(t.sink, restart);
  }

  lemma WOpenFollows(t: Tcp, d: State, restart: bool)
    requires Follows(t, d) && t.pc.Commands?
    ensures var v := Dispatch(t, WOpen, restart);
            var (e, rs) := OnCommand(t.info, d, WOpen, restart);
            Follows(v, e) && v.out == t.out + rs && v.info == t.info
  {
    hide DataHeader, Inv, Open;
    UsbDialog.OpenStaysHealthy(t.sink, d.open, restart);
  }

  lemma FinishFollows(t: Tcp, d: State, c: Proto.Command, restart: bool)
    requires Follows(t, d) && t.pc.Commands? && (c.Flash? || c.Close?)
    ensures var v := Dispatch(t, c, restart);
            var (e, rs) := OnCommand(t.info, d, c, restart);
            Follows(v, e) && v.out == t.out + rs && v.info == t.info
  {
    ApplyKeepsInv(t.sink, OpEof);
    assert t.out + [InfoWait] + [FailClose] == t.out + ([InfoWait] + [FailClose]);
    assert t.out + [InfoWait] == t.out + ([InfoWait] + []);
    assert t.out + [] == t.out;
  }

  lemma CommandFollows(t: Tcp, d: State, c: Proto.Command, restart: bool)
    requires Follows(t, d) && t.pc.Commands?
    ensures var v := Dispatch(t, c, restart);
            var (e, rs) := OnCommand(t.info, d, c, restart);
            Follows(v, e) && v.out == t.out + rs && v.info == t.info
  {
    hide HandleDownload, FinishDownload, Open, DataHeader, Inv;
    match c
    case Download(len, kind) => DownloadFollows(t, d, len, kind, restart);
    case WOpen => WOpenFollows(t, d, restart);
    case Flash => FinishFollows(t, d, c, restart);
    case Close => FinishFollows(t, d, c, restart);
    case _ =>
  }

  /** A block is read and SWUpdate has no verdict yet: nothing is visible outside. */
  lemma DataFollows(t: Tcp, d: State, block: Bytes)
    requires Follows(t, d) && Ready(t, Input.Data(block))
    ensures var v := Block(t, block); Follows(v, d) && v.out == t.out && v.info == t.info
  {
    hide Inv;
    OpenedWhileStreaming(t, d);
  }

  lemma OpenedWhileStreaming(t: Tcp, d: State)
    requires Follows(t, d) && d.remaining > 0
    ensures t.sink.Opened() && PollStatus(t.sink) == (t.sink, None)
  {
  }

  lemma FeedFollows(t: Tcp, d: State, restart: bool)
    requires Follows(t, d) && Ready(t, Feed(restart))
    ensures Legal(d, Event.Data(t.pc.block))
    ensures var v := FeedBlock(t, restart);
            var (e, rs) := Step(t.info, d, Event.Data(t.pc.block));
            Follows(v, e) && v.out == t.out + rs && v.info == t.info
  {
    hide QueueCapacity;
    SendHands(t.sink, t.pc.block, restart);
    assert t.out + [] == t.out;
  }

  lemma TakeFollows(t: Tcp, d: State, i: Input)
    requires Follows(t, d) && Quiet(t, i)
    ensures LegalRun(t.info, d, EventOf(t, i))
    ensures var (e, rs, bytes) := Converse(t.info, d, EventOf(t, i));
            && Follows(Take(t, i), e) && Take(t, i).out == t.out + rs && Take(t, i).info == t.info
            && Gained(t.sink.Handed(), Take(t, i).sink.Handed()) == bytes
  {
    hide Take, LegalRun, Converse, Quiet, Ready;
    EventFollows(t, d, i);
    AtMostOne(t, i);
    EventGains(t.info, d, EventOf(t, i));
  }

  lemma AtMostOne(t: Tcp, i: Input)
    requires Quiet(t, i)
    ensures |EventOf(t, i)| <= 1
  {
  }

  lemma MoveFollows(t: Tcp, d: State, m: Move)
    requires Follows(t, d) && Quiet(t, Env(m))
    ensures Follows(t.(sink := Do(t.sink, m)), d)
  {
    MoveKeepsInv(t.sink, m);
  }

  lemma EventFollows(t: Tcp, d: State, i: Input)
    requires Follows(t, d) && Quiet(t, i)
    ensures LegalRun(t.info, d, EventOf(t, i))
    ensures var (e, rs, bytes) := Converse(t.info, d, EventOf(t, i));
            Follows(Take(t, i), e) && Take(t, i).out == t.out + rs && Take(t, i).info == t.info
  {
    hide OnCommand, Dispatch, Block, FeedBlock, ParseCommand, Session.Full, Do, Inv;
    assert t.out + [] == t.out;
    match i
    case Env(m) => MoveFollows(t, d, m);
    case Command(cmd, restart) =>
      CommandFollows(t, d, ParseCommand(cmd).value.0, restart);
      UsbDialog.OneEvent(t.info, d, EventOf(t, i)[0]);
    case Data(block) => DataFollows(t, d, block);
    case Feed(restart) =>
      FeedFollows(t, d, restart);
      UsbDialog.OneEvent(t.info, d, EventOf(t, i)[0]);
    case Finished =>
      NewInv(RECV_BUFFER_SIZE);
      UsbDialog.OneEvent(t.info, d, EventOf(t, i)[0]);
  }

  predicate QuietRun(t: Tcp, inputs: seq<Input>)
    decreases |inputs|
  {
    inputs == [] || (Quiet(t, inputs[0]) && QuietRun(Take(t, inputs[0]), inputs[1..]))
  }

  lemma {:induction false} QuietCanRun(t: Tcp, inputs: seq<Input>)
    requires QuietRun(t, inputs)
    ensures CanRunTcp(t, inputs)
    decreases |inputs|
  {
    hide Take, Ready;
    if inputs != [] { QuietCanRun(Take(t, inputs[0]), inputs[1..]); }
  }

  /** Every byte handed to any transfer during the run, in order, read off the sessions. */
  function Handover(t: Tcp, inputs: seq<Input>): Bytes
    requires CanRunTcp(t, inputs)
    decreases |inputs|
  {
    if inputs == [] then []
    else Gained(t.sink.Handed(), Take(t, inputs[0]).sink.Handed()) + Handover(Take(t, inputs[0]), inputs[1..])
  }

  function Events(t: Tcp, inputs: seq<Input>): seq<Event>
    requires QuietRun(t, inputs)
    decreases |inputs|
  {
    if inputs == [] then [] else EventOf(t, inputs[0]) + Events(Take(t, inputs[0]), inputs[1..])
  }

  lemma {:induction false} RunFollows(t: Tcp, d: State, inputs: seq<Input>)
    requires Follows(t, d) && QuietRun(t, inputs)
    ensures CanRunTcp(t, inputs) && LegalRun(t.info, d, Events(t, inputs))
    ensures var (e, rs, bytes) := Converse(t.info, d, Events(t, inputs));
            && Follows(RunTcp(t, inputs), e) && RunTcp(t, inputs).out == t.out + rs
            && Handover(t, inputs) == bytes
    decreases |inputs|
  {
    hide Take, EventOf, Step, Follows, Quiet, Ready, Gained, Converse, LegalRun;
    QuietCanRun(t, inputs);
    if inputs == [] {
      ConverseNothing(t.info, d);
      assert t.out + [] == t.out;
    } else {
      TakeFollows(t, d, inputs[0]);
      var es := EventOf(t, inputs[0]);
      var x := Converse(t.info, d, es);
      var v := Take(t, inputs[0]);
      RunFollows(v, x.0, inputs[1..]);
      var rest := Events(v, inputs[1..]);
      UsbDialog.ConverseAppend(t.info, d, es, rest);
      var y := Converse(t.info, x.0, rest);
      assert t.out + x.1 + y.1 == t.out + (x.1 + y.1);
    }
  }

  /** Main result: every undisturbed TCP run answers as the reference conversation does and hands over its stream. */
  lemma TcpFollowsDialog(info: Info, inputs: seq<Input>)
    requires QuietRun(Start(info), inputs)
    ensures CanRunTcp(Start(info), inputs) && LegalRun(info, START, Events(Start(info), inputs))
    ensures var t := RunTcp(Start(info), inputs);
            var (d, rs, bytes) := Converse(info, START, Events(Start(info), inputs));
            t.out == rs && t.sink.Handed() == d.stream && Handover(Start(info), inputs) == bytes
  {
    assert Follows(Start(info), START);
    RunFollows(Start(info), START, inputs);
    var rs := Converse(info, START, Events(Start(info), inputs)).1;
    assert [] + rs == rs;
  }

  /**
   The two transports have one command semantics.  Whenever a USB run and a TCP run carry the same
   conversation, however each cut the payload into pieces and however the background tasks were scheduled,
   they send the same replies and hand the same bytes to SWUpdate.
   */
  lemma TransportsAgree(info: Info, usb: seq<FastbootUsb.Input>, tcp: seq<Input>)
    requires UsbDialog.QuietRun(FastbootUsb.Start(info), usb) && QuietRun(Start(info), tcp)
    requires Merge(UsbDialog.Events(FastbootUsb.Start(info), usb)) == Merge(Events(Start(info), tcp))
    ensures CanRunTcp(Start(info), tcp)
    ensures var u := FastbootUsb.RunUsb(FastbootUsb.Start(info), usb);
            var t := RunTcp(Start(info), tcp);
            && u.out == t.out && u.sink.Handed() == t.sink.Handed()
            && UsbDialog.Handover(FastbootUsb.Start(info), usb) == Handover(Start(info), tcp)
    ensures var eu := UsbDialog.Events(FastbootUsb.Start(info), usb);
            var et := Events(Start(info), tcp);
            && LegalRun(info, START, eu) && LegalRun(info, START, et)
            && Converse(info, START, eu) == Converse(info, START, et)
  {
    var eu := UsbDialog.Events(FastbootUsb.Start(info), usb);
    var et := Events(Start(info), tcp);
    UsbDialog.UsbFollowsDialog(info, usb);
    TcpFollowsDialog(info, tcp);
    MergeKeepsConversation(info, START, eu);
    MergeKeepsConversation(info, START, et);
    assert Follows(Start(info), START);
    RunFollows(Start(info), START, tcp);
  }
}
