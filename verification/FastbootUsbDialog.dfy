/** The USB implementation follows the reference conversation. */
module FastbootUsbDialog {
  import opened ByteSeq
  import opened Proto
  import opened Swupdate
  import opened Dialog
  import opened FastbootUsb

  /** A transfer that is running normally, or none at all. */
  ghost predicate Healthy(s: Session, open: bool) {
    if open then s.tx && s.status && s.outcome.None? && !s.ReceiverGone() else !s.IsOpen() && !s.Opened()
  }

  ghost predicate Follows(u: Usb, d: State) {
    && Inv(u.sink) && u.failReply.None?
    && u.sessionOpen == d.wopen && u.pendingFlash == d.flash && u.finishPending == d.finishing
    && u.done <= u.size && u.size - u.done == d.remaining
    && (d.finishing ==> d.open && d.remaining == 0)
    && (!d.finishing ==> Healthy(u.sink, d.open))
    && u.sink.Handed() == d.stream && (!d.open ==> d.stream == [])
    && (!d.open ==> !d.wopen && !d.flash && d.remaining == 0)
  }

  /**
   An input of an undisturbed run: one parseable command per completion, data that stops at the boundary, no
   transport failure, and no background failure or verdict before the transfer is finished.
   */
  predicate Quiet(u: Usb, i: Input) {
    Ready(u, i) &&
    match i
    case Env(m) => u.finishPending || !(m.ConnectErr? || m.WriteErr? || m.Settle?)
    case Check => true
    case Recv(chunk, restart, headerSent) =>
      && headerSent
      && (if u.Active() then 0 < |chunk| <= u.Remaining()
          else
            && ParseCommand(chunk).Some?
            && (ParseCommand(chunk).value.0.Download? ==> ParseCommand(chunk).value.1 == |chunk|))
    case Finished => true
    case _ => false
  }

  /** What the host sees of an input. */
  function EventOf(u: Usb, i: Input): seq<Event>
    requires Quiet(u, i)
  {
    match i
    case Recv(chunk, restart, _) => [if u.Active() then Data(chunk) else Cmd(ParseCommand(chunk).value.0, restart)]
    case Finished => [Verdict(PollStatus(u.sink).1.value)]
    case _ => []
  }

  lemma OpenStaysHealthy(s: Session, open: bool, restart: bool)
    requires Inv(s) && Healthy(s, open)
    ensures var (r, ok) := Open(s, restart);
            && Inv(r)
            && (ok <==> open || !restart)
            && (ok ==> Healthy(r, true) && r.Handed() == if open then s.Handed() else [])
            && (!ok ==> r == s)
  {
    ApplyKeepsInv(s, OpOpen(restart));
  }

  lemma DownloadFollows(u: Usb, d: State, len: nat, kind: DownloadKind, restart: bool)
    requires Follows(u, d) && d.remaining == 0 && !d.finishing
    ensures var v := StartDownload(u, len, kind, restart, true).0;
            var (e, rs) := OnCommand(u.info, d, Download(len, kind), restart);
            Follows(v, e) && v.out == u.out + rs && v.info == u.info
  {
    hide DataHeader, Inv;
    hide Open;
    OpenStaysHealthy(u.sink, d.open, restart);
    OpenWhenOpen(u.sink, restart);
  }

  lemma OpenWhenOpen(s: Session, restart: bool)
    ensures s.IsOpen() ==> Open(s, restart) == (s, true)
  {
  }

  lemma WOpenFollows(u: Usb, d: State, restart: bool)
    requires Follows(u, d) && d.remaining == 0 && !d.finishing
    ensures var v := HandleCommand(u, WOpen, restart, true).0;
            var (e, rs) := OnCommand(u.info, d, WOpen, restart);
            Follows(v, e) && v.out == u.out + rs && v.info == u.info
  {
    hide DataHeader, Inv, Open;
    OpenStaysHealthy(u.sink, d.open, restart);
  }

  lemma FinishFollows(u: Usb, d: State, c: Command, restart: bool)
    requires Follows(u, d) && d.remaining == 0 && !d.finishing && (c.Flash? || c.Close?)
    ensures var v := HandleCommand(u, c, restart, true).0;
            var (e, rs) := OnCommand(u.info, d, c, restart);
            Follows(v, e) && v.out == u.out + rs && v.info == u.info
  {
    ApplyKeepsInv(u.sink, OpEof);
    assert u.out + [InfoWait] + [FailClose] == u.out + ([InfoWait] + [FailClose]);
    assert u.out + [InfoWait] == u.out + ([InfoWait] + []);
    assert u.out + [] == u.out;
  }

  lemma ReportFollows(u: Usb, d: State, c: Command, restart: bool)
    requires Follows(u, d) && d.remaining == 0 && !d.finishing
    requires c.GetVar? || c.Fetch? || c.FetchUnknownPart? || c.Unsupported?
    ensures var v := HandleCommand(u, c, restart, true).0;
            var (e, rs) := OnCommand(u.info, d, c, restart);
            Follows(v, e) && v.out == u.out + rs && v.info == u.info
  {
    hide DataHeader, Inv;
  }

  lemma CommandFollows(u: Usb, d: State, c: Command, restart: bool)
    requires Follows(u, d) && d.remaining == 0 && !d.finishing
    ensures var v := HandleCommand(u, c, restart, true).0;
            var (e, rs) := OnCommand(u.info, d, c, restart);
            Follows(v, e) && v.out == u.out + rs && v.info == u.info
  {
    hide Follows, OnCommand, StartDownload, FinishFlash, StartFinish, Begin;
    match c
    case Download(len, kind) => DownloadFollows(u, d, len, kind, restart);
    case WOpen => WOpenFollows(u, d, restart);
    case Flash => FinishFollows(u, d, c, restart);
    case Close => FinishFollows(u, d, c, restart);
    case _ => ReportFollows(u, d, c, restart);
  }

  lemma DataFollows(u: Usb, d: State, chunk: Bytes, restart: bool)
    requires Follows(u, d) && u.Active() && 0 < |chunk| <= u.Remaining() && !u.sink.Full()
    ensures Legal(d, Data(chunk))
    ensures var v := DownloadChunk(u, chunk, restart);
            var (e, rs) := Step(u.info, d, Data(chunk));
            Follows(v, e) && v.out == u.out + rs && v.info == u.info
  {
    hide QueueCapacity;
    SendHands(u.sink, chunk, restart);
    assert u.out + [] == u.out;
  }

  lemma MoveFollows(u: Usb, d: State, m: Move)
    requires Follows(u, d) && (d.finishing || !(m.ConnectErr? || m.WriteErr? || m.Settle?))
    ensures Follows(u.(sink := Do(u.sink, m)), d)
  {
    MoveKeepsInv(u.sink, m);
  }

  lemma CheckFollows(u: Usb, d: State)
    requires Follows(u, d)
    ensures CheckFailed(u) == u
  {
  }

  /** One input of an undisturbed run. */
  lemma TakeFollows(u: Usb, d: State, i: Input)
    requires Follows(u, d) && Quiet(u, i)
    ensures LegalRun(u.info, d, EventOf(u, i))
    ensures var (e, rs, bytes) := Converse(u.info, d, EventOf(u, i));
            && Follows(Take(u, i), e) && Take(u, i).out == u.out + rs && Take(u, i).info == u.info
            && Gained(u.sink.Handed(), Take(u, i).sink.Handed()) == bytes
  {
    hide Take, LegalRun, Converse, Quiet;
    EventFollows(u, d, i);
    AtMostOne(u, i);
    EventGains(u.info, d, EventOf(u, i));
  }

  lemma AtMostOne(u: Usb, i: Input)
    requires Quiet(u, i)
    ensures |EventOf(u, i)| <= 1
  {
  }

  lemma EventFollows(u: Usb, d: State, i: Input)
    requires Follows(u, d) && Quiet(u, i)
    ensures LegalRun(u.info, d, EventOf(u, i))
    ensures var (e, rs, bytes) := Converse(u.info, d, EventOf(u, i));
            Follows(Take(u, i), e) && Take(u, i).out == u.out + rs && Take(u, i).info == u.info
  {
    hide OnCommand, HandleCommand, DownloadChunk, ParseCommand, Session.Full;
    assert u.out + [] == u.out;
    match i
    case Env(m) => MoveFollows(u, d, m);
    case Check => CheckFollows(u, d);
    case Recv(chunk, restart, _) =>
      var ev := EventOf(u, i)[0];
      assert EventOf(u, i) == [ev] && [ev][1..] == [];
      if u.Active() {
        DataFollows(u, d, chunk, restart);
        OneEvent(u.info, d, ev);
      } else {
        var v := u.(commands := u.commands + [chunk]);
        assert Follows(v, d);
        CommandFollows(v, d, ParseCommand(chunk).value.0, restart);
        OneEvent(u.info, d, ev);
        ActiveMeansDownload(v, ParseCommand(chunk).value.0, restart);
      }
    case Finished =>
      var ev := EventOf(u, i)[0];
      assert EventOf(u, i) == [ev] && [ev][1..] == [];
      OneEvent(u.info, d, ev);
  }

  lemma OneEvent(info: Info, d: State, ev: Event)
    requires Legal(d, ev)
    ensures LegalRun(info, d, [ev])
    ensures Converse(info, d, [ev]).0 == Step(info, d, ev).0 && Converse(info, d, [ev]).1 == Step(info, d, ev).1
  {
    hide OnCommand;
    assert [ev][1..] == [];
    var (d1, now) := Step(info, d, ev);
    assert now + [] == now;
  }

  lemma ActiveMeansDownload(u: Usb, c: Command, restart: bool)
    requires !u.Active()
    ensures HandleCommand(u, c, restart, true).0.Active() ==> c.Download?
  {
    hide DataHeader, Open;
  }

  predicate QuietRun(u: Usb, inputs: seq<Input>)
    decreases |inputs|
  {
    inputs == [] || (Quiet(u, inputs[0]) && QuietRun(Take(u, inputs[0]), inputs[1..]))
  }

  /** Every byte handed to any transfer during the run, in order, read off the sessions. */
  function Handover(u: Usb, inputs: seq<Input>): Bytes
    decreases |inputs|
  {
    if inputs == [] then []
    else Gained(u.sink.Handed(), Take(u, inputs[0]).sink.Handed()) + Handover(Take(u, inputs[0]), inputs[1..])
  }

  function Events(u: Usb, inputs: seq<Input>): seq<Event>
    requires QuietRun(u, inputs)
    decreases |inputs|
  {
    if inputs == [] then [] else EventOf(u, inputs[0]) + Events(Take(u, inputs[0]), inputs[1..])
  }

  lemma {:induction false} ConverseAppend(info: Info, d: State, xs: seq<Event>, ys: seq<Event>)
    requires LegalRun(info, d, xs) && LegalRun(info, Converse(info, d, xs).0, ys)
    ensures LegalRun(info, d, xs + ys)
    ensures var x := Converse(info, d, xs);
            var y := Converse(info, x.0, ys);
            Converse(info, d, xs + ys) == (y.0, x.1 + y.1, x.2 + y.2)
    decreases |xs|
  {
    hide Step, Legal, LegalRun, Converse;
    if xs == [] {
      assert xs + ys == ys;
      ConverseNothing(info, d);
      var y := Converse(info, d, ys);
      assert [] + y.1 == y.1 && [] + y.2 == y.2;
    } else {
      assert (xs + ys)[0] == xs[0] && (xs + ys)[1..] == xs[1..] + ys;
      Unfold(info, d, xs);
      var d1 := Step(info, d, xs[0]);
      ConverseAppend(info, d1.0, xs[1..], ys);
      Unfold(info, d, xs + ys);
      var x := Converse(info, d1.0, xs[1..]);
      var y := Converse(info, x.0, ys);
      assert d1.1 + (x.1 + y.1) == d1.1 + x.1 + y.1;
      var b: Bytes := if xs[0].Data? then xs[0].bytes else [];
      assert b + (x.2 + y.2) == b + x.2 + y.2;
    }
  }

  lemma {:induction false} RunFollows(u: Usb, d: State, inputs: seq<Input>)
    requires Follows(u, d) && QuietRun(u, inputs)
    ensures LegalRun(u.info, d, Events(u, inputs))
    ensures var (e, rs, bytes) := Converse(u.info, d, Events(u, inputs));
            && Follows(RunUsb(u, inputs), e) && RunUsb(u, inputs).out == u.out + rs
            && Handover(u, inputs) == bytes
    decreases |inputs|
  {
    hide Take, Quiet, EventOf, Step, Follows, Gained, Converse, LegalRun;
    if inputs == [] {
      ConverseNothing(u.info, d);
      assert u.out + [] == u.out;
    } else {
      TakeFollows(u, d, inputs[0]);
      var es := EventOf(u, inputs[0]);
      var x := Converse(u.info, d, es);
      var v := Take(u, inputs[0]);
      RunFollows(v, x.0, inputs[1..]);
      var rest := Events(v, inputs[1..]);
      ConverseAppend(u.info, d, es, rest);
      var y := Converse(u.info, x.0, rest);
      assert u.out + x.1 + y.1 == u.out + (x.1 + y.1);
    }
  }

  /** Main result: every undisturbed USB run answers as the reference conversation does and hands over its stream. */
  lemma UsbFollowsDialog(info: Info, inputs: seq<Input>)
    requires QuietRun(Start(info), inputs)
    ensures LegalRun(info, START, Events(Start(info), inputs))
    ensures var u := RunUsb(Start(info), inputs);
            var (d, rs, bytes) := Converse(info, START, Events(Start(info), inputs));
            u.out == rs && u.sink.Handed() == d.stream && Handover(Start(info), inputs) == bytes
  {
    assert Follows(Start(info), START);
    RunFollows(Start(info), START, inputs);
    var rs := Converse(info, START, Events(Start(info), inputs)).1;
    assert [] + rs == rs;
  }
}
