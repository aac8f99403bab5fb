/** The loops of the TCP service: the pump between a data phase and SWUpdate, and the data phase itself. */
module FastbootTcpSession {
  import opened ByteSeq
  import opened Swupdate
  import opened Dialog
  import opened FastbootTcp
  import opened FastbootTcpRuns
  import TcpFraming
  import SwupdateSession

  datatype PumpEnd = InputClosed | SwupdateFinished(verdict: Swupdate.Verdict) | InputBroken

  /** An opened transfer in a consistent state. */
  ghost predicate Usable(s: Session) { Inv(s) && s.Opened() }

  lemma YieldKeepsUsable(s: Session, ms: seq<Move>)
    requires Usable(s)
    ensures Usable(DoAll(s, ms)) && DoAll(s, ms).Handed() == s.Handed()
  {
    MovesKeepInv(s, ms);
  }

  lemma PollKeepsUsable(s: Session)
    requires Usable(s)
    ensures Usable(PollStatus(s).0) && PollStatus(s).0.Handed() == s.Handed()
    ensures PollStatus(s).1.Some? ==> PollStatus(s).0.terminal == PollStatus(s).1
  {
  }

  lemma SendAfterWait(s: Session, ms: seq<Move>, block: Bytes, restart: bool)
    requires Usable(s) && !TrySend(DoAll(s, ms), block, restart).1.FeedFull?
    ensures var (r, feed) := TrySend(DoAll(s, ms), block, restart);
            Usable(r) && (feed.FeedOk? || feed.FeedClosed?) && r.Handed() == s.Handed() + block
  {
    MovesKeepInv(s, ms);
    SendHands(DoAll(s, ms), block, restart);
  }

  /** Where the machine stands when the pump returns. */
  function AfterPump(t: Tcp, end: PumpEnd, sink: Session, remaining: nat): Tcp {
    match end
    case SwupdateFinished(v) => EarlyVerdict(t.(sink := sink), remaining, v)
    case _ => Continue(t.(sink := sink), remaining, true)
  }

  /**
   `pump_to_swupdate`: forwards blocks until the payload is exhausted or SWUpdate has a verdict.  What was
   forwarded is a prefix of what was read, all of it unless a verdict came first; and whatever the socket and
   the background tasks do, the call is a run of the machine, started from `t` inside a data phase.
   */
  method Pump(source: TcpFraming.Source, sink: SwupdateSession.Sink, restart: bool, ghost t: Tcp)
    returns (end: PumpEnd, ghost read: Bytes, ghost forwarded: Bytes, ghost trace: seq<Input>)
    requires source.Valid() && Usable(sink.View())
    requires t.sink == sink.View() && t.pc == Streaming(source.remaining, true)
    modifies source, source.conn, sink
    ensures source.Valid() && Usable(sink.View()) && source.conn.pos >= old(source.conn.pos)
    ensures old(source.Expected()) ==
            if end.InputBroken? then TcpFraming.Broken(read) else TcpFraming.After(read, source.Expected())
    ensures forwarded <= read && sink.View().Handed() == old(sink.View().Handed()) + forwarded
    ensures source.remaining <= old(source.remaining)
    ensures end.InputClosed? ==> source.remaining == 0 && forwarded == read
    ensures end.InputBroken? ==> source.remaining > 0 && forwarded == read
    ensures end.SwupdateFinished? ==> source.remaining < old(source.remaining) && sink.View().terminal == Some(end.verdict)
    ensures old(source.remaining) > 0 ==> Leads(t, trace, AfterPump(t, end, sink.View(), source.remaining))
  {
    hide Usable, PollStatus, TrySend, DoAll, Leads, TcpFraming.Drain, EarlyVerdict;
    read, forwarded, trace := [], [], [];
    NothingRead(source.Expected());
    Nothing(t);
    ghost var start := sink.View().Handed();
    assert start + [] == start;
    while source.remaining > 0
      invariant source.Valid() && Usable(sink.View()) && source.conn.pos >= old(source.conn.pos)
      invariant old(source.Expected()) == TcpFraming.After(read, source.Expected())
      invariant forwarded == read && sink.View().Handed() == start + forwarded
      invariant source.remaining <= old(source.remaining)
      invariant old(source.remaining) > 0 ==> Leads(t, trace, Continue(t.(sink := sink.View()), source.remaining, true))
      decreases source.remaining
    {
      ghost var left := source.remaining;
      var ok, block := source.ReadBlock();
      if !ok {
        assert read + [] == read;
        return InputBroken, read, forwarded, trace;
      }
      TcpFraming.AfterAppend(read, block, source.Expected());
      read := read + block;
      ghost var sent: Bytes, more: seq<Input>;
      var over: Option<Swupdate.Verdict>;
      over, sent, more := Forward(sink, block, restart, t, trace, left);
      trace := trace + more;
      assert start + forwarded + sent == start + (forwarded + sent);
      forwarded := forwarded + sent;
      if over.Some? { return SwupdateFinished(over.value), read, forwarded, trace; }
    }
    end := InputClosed;
  }

  /** One turn of the pump with a block in hand: the look at SWUpdate, the feed, and the wait on a closed queue. */
  method Forward(sink: SwupdateSession.Sink, block: Bytes, restart: bool, ghost t: Tcp, ghost trace: seq<Input>, ghost left: nat)
    returns (over: Option<Swupdate.Verdict>, ghost sent: Bytes, ghost more: seq<Input>)
    requires Usable(sink.View()) && 0 < |block| <= left
    requires Leads(t, trace, At(t, sink.View(), Streaming(left, true)))
    modifies sink
    ensures Usable(sink.View()) && sink.View().Handed() == old(sink.View().Handed()) + sent
    ensures sent == block || (over.Some? && sent == [])
    ensures over.Some? ==> sink.View().terminal == over
    ensures Leads(t, trace + more,
                  if over.Some? then EarlyVerdict(t.(sink := sink.View()), left - |block|, over.value)
                  else Continue(t.(sink := sink.View()), left - |block|, true))
  {
    hide Usable, PollStatus, TrySend, DoAll, Leads, EarlyVerdict, Continue;
    ghost var s := sink.View();
    YieldThen(s);
    ghost var moves := sink.Yield();
    ghost var read := Moves(moves) + [FastbootTcp.Input.Data(block)];
    assert trace + Moves(moves) + [FastbootTcp.Input.Data(block)] == trace + read;
    var open := sink.IsOpen();
    if open {
      PollKeepsUsable(sink.View());
      var verdict := sink.PollStatus();
      if verdict.Some? {
        TurnFinished(t, trace, s, left, moves, block);
        assert s.Handed() + [] == s.Handed();
        return verdict, [], read;
      }
    }
    TurnWaits(t, trace, s, left, moves, block);
    ghost var before := sink.View();
    UsableFacts(before, restart);
    var feed, waited := sink.Send(block, restart);
    SendAfterWait(before, waited, block, restart);
    TurnFeeds(t, trace + read, before, block, left - |block|, waited, restart);
    ghost var fed := read + (Moves(waited) + [FastbootTcp.Input.Feed(restart)]);
    assert trace + read + (Moves(waited) + [FastbootTcp.Input.Feed(restart)]) == trace + fed;
    if feed.FeedClosed? {
      ghost var closed := sink.View();
      VerdictAfterWait(closed);
      var v, last := sink.Finished();
      TurnSettles(t, trace + fed, closed, left - |block|, last);
      ghost var all := fed + (Moves(last) + [FastbootTcp.Input.Finished]);
      assert trace + fed + (Moves(last) + [FastbootTcp.Input.Finished]) == trace + all;
      return Some(v), block, all;
    }
    return None, block, fed;
  }

  lemma NothingRead(d: TcpFraming.Drained)
    ensures TcpFraming.After([], d) == d
  {
  }

  lemma YieldThen(s: Session)
    requires Usable(s)
    ensures forall ms :: Usable(DoAll(s, ms)) && DoAll(s, ms).Handed() == s.Handed()
  {
    forall ms ensures Usable(DoAll(s, ms)) && DoAll(s, ms).Handed() == s.Handed() { YieldKeepsUsable(s, ms); }
  }

  lemma VerdictAfterWait(s: Session)
    requires Usable(s)
    ensures forall ms :: Usable(PollStatus(DoAll(s, ms)).0) && PollStatus(DoAll(s, ms)).0.Handed() == s.Handed()
    ensures forall ms :: var r := PollStatus(DoAll(s, ms)); r.1.Some? ==> r.0.terminal == r.1
  {
    forall ms
      ensures Usable(PollStatus(DoAll(s, ms)).0) && PollStatus(DoAll(s, ms)).0.Handed() == s.Handed()
      ensures var r := PollStatus(DoAll(s, ms)); r.1.Some? ==> r.0.terminal == r.1
    {
      YieldKeepsUsable(s, ms);
      PollKeepsUsable(DoAll(s, ms));
    }
  }

  lemma UsableFacts(s: Session, restart: bool)
    requires Usable(s)
    ensures Inv(s) && EnsureOpen(s, restart).0 == s
  {
  }

  /** The bytes of the data phase that the connection still delivers. */
  function PayloadOf(d: TcpFraming.Drained): Bytes {
    match d case Drained(payload, _, _) => payload case Broken(prefix) => prefix
  }

  /**
   `stream_download`: OKAY is sent only after every announced byte was read, with the cursor behind the last
   of them; what reached SWUpdate is a prefix of the payload however the stream was segmented, and all of it
   unless SWUpdate reported its verdict meanwhile.  The call is a
   run of the machine from `t`, which stands at the beginning of the data phase.
   */
  method StreamDownload(conn: TcpFraming.Connection, sink: SwupdateSession.Sink, total: nat, restart: bool, ghost t: Tcp)
    returns (ok: bool, replies: seq<Reply>, ghost forwarded: Bytes, ghost trace: seq<Input>, ghost pc: Pc)
    requires conn.Valid() && Usable(sink.View())
    requires t.sink == sink.View() && t.pc == Streaming(total, true)
    modifies conn, sink
    ensures conn.Valid() && conn.pos >= old(conn.pos) && (ok ==> Usable(sink.View())) && Inv(sink.View())
    ensures var expected := TcpFraming.Drain(old(conn.Ahead()), total, 0);
            && forwarded <= PayloadOf(expected)
            && sink.View().Handed() == old(sink.View().Handed()) + forwarded
            && (ok ==> expected.Drained? && conn.Ahead() == expected.rest && replies == [Okay])
            && (!ok ==> replies == [FailEpipe] || (replies == [] && expected.Broken?))
            && (ok && sink.View().terminal.None? ==> forwarded == PayloadOf(expected))
    ensures total > 0 ==> Leads(t, trace, t.(sink := sink.View(), pc := pc, out := t.out + replies))
    ensures (ok <==> pc.Commands?) && (pc.Dropped? <==> replies == [FailEpipe]) && (pc.Commands? || pc.Dropped? || pc.Streaming?)
    ensures pc.Dropped? ==> !sink.View().IsOpen() && !sink.View().Opened()
  {
    hide Usable, TcpFraming.Drain, TcpFraming.After, PayloadOf, Leads, Swupdate.Abort, Continue, AfterPump;
    var source := new TcpFraming.Source(conn, total);
    ghost var expected := source.Expected();
    ghost var start := sink.View().Handed();
    ghost var read: Bytes := [];
    forwarded, trace := [], [];
    NothingRead(expected);
    assert start + [] == start && t.out + [] == t.out;
    var forwarding := true;
    while source.remaining > 0
      invariant source.Valid() && source.conn == conn && fresh(source) && Usable(sink.View()) && conn.pos >= old(conn.pos)
      invariant expected == TcpFraming.After(read, source.Expected())
      invariant forwarded <= read && sink.View().Handed() == start + forwarded
      invariant forwarding ==> forwarded == read && t.sink == sink.View() && source.remaining == total
      invariant !forwarding ==> sink.View().terminal.Some?
      invariant !forwarding ==> Leads(t, trace, Continue(t.(sink := sink.View()), source.remaining, false))
      decreases source.remaining
    {
      if forwarding {
        var end, got, sent, run := Pump(source, sink, restart, t);
        trace := run;
        TcpFraming.AfterAppend(read, got, if end.InputBroken? then TcpFraming.Broken([]) else source.Expected());
        BrokenAfter(got);
        assert start + forwarded + sent == start + (forwarded + sent);
        forwarded := read + sent;
        read := read + got;
        UsableInv(sink.View());
        PumpEnds(t, end, sink.View(), source.remaining);
        match end {
          case InputClosed => break;
          case InputBroken =>
            PrefixOfPayload(read, TcpFraming.Broken([]));
            return false, [], forwarded, trace, Streaming(source.remaining, true);
          case SwupdateFinished(v) =>
            if v.Failure? {
              AbortKeeps(sink.View());
              sink.Abort();
              PrefixOfPayload(read, source.Expected());
              return false, [FailEpipe], forwarded, trace, Dropped;
            }
            forwarding := false;
        }
      } else {
        var more;
        ghost var block;
        more, block, trace := Discard(source, t, sink.View(), trace);
        if !more {
          UsableInv(sink.View());
          PrefixOfPayload(read, TcpFraming.Broken([]));
          return false, [], forwarded, trace, Streaming(source.remaining, false);
        }
        TcpFraming.AfterAppend(read, block, source.Expected());
        read := read + block;
      }
    }
    UsableInv(sink.View());
    Acknowledged(t.(sink := sink.View()));
    PrefixOfPayload(read, source.Expected());
    TcpFraming.DrainNothing(conn.Ahead(), source.inFrame);
    assert PayloadOf(TcpFraming.Drained([], conn.Ahead(), source.inFrame)) == [] by { NoPayload(conn.Ahead(), source.inFrame); }
    return true, [Okay], forwarded, trace, Commands;
  }

  /** Reads one block after the verdict and throws it away. */
  method Discard(source: TcpFraming.Source, ghost t: Tcp, ghost s: Session, ghost before: seq<Input>)
    returns (more: bool, ghost block: Bytes, ghost trace: seq<Input>)
    requires source.Valid() && source.remaining > 0
    requires Leads(t, before, Continue(t.(sink := s), source.remaining, false))
    modifies source, source.conn
    ensures source.Valid() && source.conn.pos >= old(source.conn.pos)
    ensures more ==> source.remaining < old(source.remaining) && old(source.Expected()) == TcpFraming.After(block, source.Expected())
    ensures !more ==> source.remaining == old(source.remaining) && old(source.Expected()) == TcpFraming.Broken([])
    ensures Leads(t, trace, Continue(t.(sink := s), source.remaining, false))
    ensures !more ==> Leads(t, trace, t.(sink := s, pc := Streaming(source.remaining, false)))
  {
    hide Leads, TcpFraming.Drain, TcpFraming.After;
    ghost var left := source.remaining;
    trace := before;
    var read;
    more, read := source.ReadBlock();
    block := read;
    if more {
      TurnDiscards(t, trace, s, left, block);
      trace := trace + [FastbootTcp.Input.Data(block)];
    }
  }

  lemma Acknowledged(t: Tcp)
    ensures Continue(t, 0, true) == t.(pc := Commands, out := t.out + [Okay])
    ensures Continue(t, 0, false) == t.(pc := Commands, out := t.out + [Okay])
  {
  }

  /** Where the machine stands after each end of the pump. */
  lemma PumpEnds(t: Tcp, end: PumpEnd, s: Session, remaining: nat)
    ensures end.InputClosed? && remaining == 0 ==> AfterPump(t, end, s, remaining) == Continue(t.(sink := s), 0, true)
    ensures end.InputBroken? && remaining > 0 ==>
              AfterPump(t, end, s, remaining) == t.(sink := s, pc := Streaming(remaining, true))
    ensures end == SwupdateFinished(Success) ==> AfterPump(t, end, s, remaining) == Continue(t.(sink := s), remaining, false)
    ensures end == SwupdateFinished(Failure) ==>
              AfterPump(t, end, s, remaining) == t.(sink := Swupdate.Abort(s), pc := Dropped, out := t.out + [FailEpipe])
  {
  }

  lemma BrokenAfter(read: Bytes)
    ensures TcpFraming.After(read, TcpFraming.Broken([])) == TcpFraming.Broken(read)
  {
    assert read + [] == read;
  }

  lemma UsableInv(s: Session)
    requires Usable(s)
    ensures Inv(s)
  {
  }

  lemma NoPayload(rest: Bytes, unread: nat)
    ensures PayloadOf(TcpFraming.Drained([], rest, unread)) == []
  {
  }

  lemma PrefixOfPayload(read: Bytes, d: TcpFraming.Drained)
    ensures read <= PayloadOf(TcpFraming.After(read, d))
    ensures d.Broken? ==> TcpFraming.After(read, d).Broken?
    ensures PayloadOf(d) == [] ==> PayloadOf(TcpFraming.After(read, d)) == read
    ensures d.Drained? ==> TcpFraming.After(read, d).Drained? && TcpFraming.After(read, d).rest == d.rest
  {
  }

  lemma AbortKeeps(s: Session)
    requires Inv(s)
    ensures Swupdate.Abort(s).Handed() == s.Handed() && Inv(Swupdate.Abort(s))
  {
    ApplyKeepsInv(s, OpAbort);
  }
}
