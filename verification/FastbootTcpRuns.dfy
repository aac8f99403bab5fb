/** Runs of the TCP machine, put together from pieces. */
module FastbootTcpRuns {
  import opened ByteSeq
  import opened Swupdate
  import opened FastbootTcp

  /** `inputs` leads from `t` to `e`. */
  ghost predicate Leads(t: Tcp, inputs: seq<Input>, e: Tcp) {
    CanRunTcp(t, inputs) && RunTcp(t, inputs) == e
  }

  lemma Nothing(t: Tcp)
    ensures Leads(t, [], t)
  {
  }

  lemma One(t: Tcp, i: Input)
    requires Ready(t, i)
    ensures Leads(t, [i], Take(t, i))
  {
    hide Ready, Take;
    assert [i][1..] == [];
    Nothing(Take(t, i));
  }

  lemma {:induction false} Then(t: Tcp, xs: seq<Input>, e: Tcp, ys: seq<Input>, f: Tcp)
    requires Leads(t, xs, e) && Leads(e, ys, f)
    ensures Leads(t, xs + ys, f)
    decreases |xs|
  {
    hide Ready, Take;
    if xs == [] {
      assert xs + ys == ys;
    } else {
      assert (xs + ys)[0] == xs[0] && (xs + ys)[1..] == xs[1..] + ys;
      Then(Take(t, xs[0]), xs[1..], e, ys, f);
    }
  }

  function Moves(ms: seq<Move>): seq<Input>
    decreases |ms|
  {
    if ms == [] then [] else [Env(ms[0])] + Moves(ms[1..])
  }

  lemma {:induction false} Background(t: Tcp, ms: seq<Move>)
    ensures Leads(t, Moves(ms), t.(sink := DoAll(t.sink, ms)))
    decreases |ms|
  {
    hide Do;
    if ms != [] {
      var next := t.(sink := Do(t.sink, ms[0]));
      Background(next, ms[1..]);
      One(t, Env(ms[0]));
      Then(t, [Env(ms[0])], next, Moves(ms[1..]), t.(sink := DoAll(t.sink, ms)));
    }
  }

  /** What the machine has done when the pump returns with a verdict. */
  lemma VerdictAtBlock(t: Tcp, block: Bytes)
    requires t.pc.Streaming? && t.pc.forwarding && 0 < |block| <= t.pc.remaining
    requires t.sink.IsOpen() && PollStatus(t.sink).1.Some?
    ensures var (sink, v) := PollStatus(t.sink);
            Leads(t, [Data(block)], EarlyVerdict(t.(sink := sink), t.pc.remaining - |block|, v.value))
  {
    One(t, Data(block));
  }

  lemma BlockWaits(t: Tcp, block: Bytes)
    requires t.pc.Streaming? && t.pc.forwarding && 0 < |block| <= t.pc.remaining
    requires t.sink.IsOpen() ==> PollStatus(t.sink).1.None?
    ensures Leads(t, [Data(block)], t.(pc := Feeding(block, t.pc.remaining - |block|)))
  {
    One(t, Data(block));
  }

  lemma BlockIsFed(t: Tcp, ms: seq<Move>, restart: bool)
    requires t.pc.Feeding?
    requires var feed := TrySend(DoAll(t.sink, ms), t.pc.block, restart).1; feed.FeedOk? || feed.FeedClosed?
    ensures var (sink, feed) := TrySend(DoAll(t.sink, ms), t.pc.block, restart);
            Leads(t, Moves(ms) + [Feed(restart)],
                  if feed.FeedOk? then Continue(t.(sink := sink), t.pc.remaining, true)
                  else t.(sink := sink, pc := Awaiting(t.pc.remaining)))
  {
    hide TrySend, DoAll;
    var u := t.(sink := DoAll(t.sink, ms));
    Background(t, ms);
    One(u, Feed(restart));
    Then(t, Moves(ms), u, [Feed(restart)], Take(u, Feed(restart)));
  }

  lemma VerdictArrived(t: Tcp, ms: seq<Move>)
    requires (t.pc.Awaiting? || t.pc.Finishing?) && PollStatus(DoAll(t.sink, ms)).1.Some?
    ensures Leads(t, Moves(ms) + [Finished], Settled(t.(sink := DoAll(t.sink, ms))))
  {
    hide DoAll, PollStatus, Settled;
    var u := t.(sink := DoAll(t.sink, ms));
    Background(t, ms);
    One(u, Finished);
    Then(t, Moves(ms), u, [Finished], Take(u, Finished));
  }

  lemma BlockDiscarded(t: Tcp, block: Bytes)
    requires t.pc.Streaming? && !t.pc.forwarding && 0 < |block| <= t.pc.remaining
    ensures Leads(t, [Data(block)], Continue(t, t.pc.remaining - |block|, false))
  {
    One(t, Data(block));
  }

  // --- One turn of the pump --------------------------------------------------------

  function At(t: Tcp, sink: Session, pc: Pc): Tcp { t.(sink := sink, pc := pc) }

  /** A block is read, SWUpdate has not finished, and the block waits to be fed. */
  lemma TurnWaits(t: Tcp, trace: seq<Input>, s: Session, r: nat, ms: seq<Move>, block: Bytes)
    requires Leads(t, trace, At(t, s, Streaming(r, true))) && 0 < |block| <= r
    requires DoAll(s, ms).IsOpen() ==> PollStatus(DoAll(s, ms)).1.None?
    ensures Leads(t, trace + Moves(ms) + [Data(block)], At(t, DoAll(s, ms), Feeding(block, r - |block|)))
  {
    hide Leads, DoAll, PollStatus;
    var a := At(t, s, Streaming(r, true));
    var b := At(t, DoAll(s, ms), Streaming(r, true));
    Background(a, ms);
    Then(t, trace, a, Moves(ms), b);
    BlockWaits(b, block);
    Then(t, trace + Moves(ms), b, [Data(block)], At(t, DoAll(s, ms), Feeding(block, r - |block|)));
  }

  /** A block is read and SWUpdate turns out to have finished. */
  lemma TurnFinished(t: Tcp, trace: seq<Input>, s: Session, r: nat, ms: seq<Move>, block: Bytes)
    requires Leads(t, trace, At(t, s, Streaming(r, true))) && 0 < |block| <= r
    requires DoAll(s, ms).IsOpen() && PollStatus(DoAll(s, ms)).1.Some?
    ensures var (sink, v) := PollStatus(DoAll(s, ms));
            Leads(t, trace + Moves(ms) + [Data(block)], EarlyVerdict(t.(sink := sink), r - |block|, v.value))
  {
    hide Leads, DoAll, PollStatus;
    var a := At(t, s, Streaming(r, true));
    var b := At(t, DoAll(s, ms), Streaming(r, true));
    Background(a, ms);
    Then(t, trace, a, Moves(ms), b);
    VerdictAtBlock(b, block);
    var (sink, v) := PollStatus(DoAll(s, ms));
    PcIrrelevant(b, t.(sink := sink), sink, r - |block|, v.value);
    Then(t, trace + Moves(ms), b, [Data(block)], EarlyVerdict(t.(sink := sink), r - |block|, v.value));
  }

  lemma PcIrrelevant(b: Tcp, t: Tcp, sink: Session, left: nat, v: Verdict)
    requires b.(sink := sink, pc := Commands) == t.(pc := Commands)
    ensures EarlyVerdict(b.(sink := sink), left, v) == EarlyVerdict(t, left, v)
    ensures Continue(b.(sink := sink), left, true) == Continue(t, left, true)
  {
  }

  /** The waiting block is fed, or the queue turns out to be closed. */
  lemma TurnFeeds(t: Tcp, trace: seq<Input>, s: Session, block: Bytes, left: nat, ms: seq<Move>, restart: bool)
    requires Leads(t, trace, At(t, s, Feeding(block, left)))
    requires var feed := TrySend(DoAll(s, ms), block, restart).1; feed.FeedOk? || feed.FeedClosed?
    ensures var (sink, feed) := TrySend(DoAll(s, ms), block, restart);
            Leads(t, trace + (Moves(ms) + [Feed(restart)]),
                  if feed.FeedOk? then Continue(t.(sink := sink), left, true) else At(t, sink, Awaiting(left)))
  {
    hide Leads, DoAll, TrySend;
    var a := At(t, s, Feeding(block, left));
    BlockIsFed(a, ms, restart);
    var (sink, feed) := TrySend(DoAll(s, ms), block, restart);
    PcIrrelevant(a, t.(sink := sink), sink, left, Success);
    Then(t, trace, a, Moves(ms) + [Feed(restart)],
         if feed.FeedOk? then Continue(t.(sink := sink), left, true) else At(t, sink, Awaiting(left)));
  }

  /** The queue was closed, so the verdict is awaited. */
  lemma TurnSettles(t: Tcp, trace: seq<Input>, s: Session, left: nat, ms: seq<Move>)
    requires Leads(t, trace, At(t, s, Awaiting(left))) && PollStatus(DoAll(s, ms)).1.Some?
    ensures var (sink, v) := PollStatus(DoAll(s, ms));
            Leads(t, trace + (Moves(ms) + [Finished]), EarlyVerdict(t.(sink := sink), left, v.value))
  {
    hide Leads, DoAll, PollStatus;
    var a := At(t, s, Awaiting(left));
    VerdictArrived(a, ms);
    var (sink, v) := PollStatus(DoAll(s, ms));
    PcIrrelevant(a, t.(sink := sink), sink, left, v.value);
    Then(t, trace, a, Moves(ms) + [Finished], EarlyVerdict(t.(sink := sink), left, v.value));
  }

  /** After the verdict, a block is read and thrown away. */
  lemma TurnDiscards(t: Tcp, trace: seq<Input>, s: Session, r: nat, block: Bytes)
    requires Leads(t, trace, At(t, s, Streaming(r, false))) && 0 < |block| <= r
    ensures Leads(t, trace + [Data(block)], Continue(t.(sink := s), r - |block|, false))
  {
    hide Leads;
    var a := At(t, s, Streaming(r, false));
    BlockDiscarded(a, block);
    Then(t, trace, a, [Data(block)], Continue(t.(sink := s), r - |block|, false));
  }
}
