/** The session object and its background loops, in the form the daemon runs them. */
module SwupdateSession {
  import opened ByteSeq
  import opened Swupdate

  class Sink {
    const maxBlock: nat
    var tx: bool
    var status: bool
    var terminal: Option<Verdict>
    var queue: seq<Bytes>
    var drain: Drain
    var outcome: Option<Verdict>
    var fed: Bytes
    var discarded: Bytes
    var written: Bytes

    function View(): (s: Session)
      reads this
    {
      Session(maxBlock, tx, status, terminal, queue, drain, outcome, fed, discarded, written)
    }

    constructor (maxBlock: nat)
      ensures View() == New(maxBlock)
    {
      this.maxBlock := maxBlock;
      tx, status, terminal := false, false, None;
      queue, drain, outcome := [], NotSpawned, None;
      fed, discarded, written := [], [], [];
    }

    method IsOpen() returns (b: bool)
      ensures b == View().IsOpen()
    {
      b := tx || status;
    }

    method Open(restart: bool) returns (ok: bool)
      modifies this
      ensures (View(), ok) == Swupdate.Open(old(View()), restart)
    {
      if tx || status { return true; }
      terminal := None;
      if restart { return false; }
      queue, drain, outcome := [], Connecting, None;
      fed, discarded, written := [], [], [];
      tx, status := true, true;
      return true;
    }

    method EnsureOpen(restart: bool) returns (ok: bool)
      modifies this
      ensures (View(), ok) == Swupdate.EnsureOpen(old(View()), restart)
    {
      if tx || status || terminal.Some? { return true; }
      ok := Open(restart);
    }

    method TrySend(block: Bytes, restart: bool) returns (feed: Feed)
      modifies this
      ensures (View(), feed) == Swupdate.TrySend(old(View()), block, restart)
    {
      var ok := EnsureOpen(restart);
      if !ok { return FeedError; }
      if !tx {
        discarded := discarded + block;
        return FeedClosed;
      }
      if View().ReceiverGone() {
        tx, discarded := false, discarded + block;
        return FeedClosed;
      }
      if |queue| >= QueueCapacity(maxBlock) { return FeedFull(block); }
      queue, fed := queue + [block], fed + block;
      return FeedOk(|block|);
    }

    /** `send`: suspends until the background tasks free a slot or drop the receiver. */
    method Send(block: Bytes, restart: bool) returns (feed: Feed, ghost waited: seq<Move>)
      requires Inv(View())
      modifies this
      ensures Inv(View()) && !feed.FeedFull?
      ensures var start := Swupdate.EnsureOpen(old(View()), restart).0;
              (View(), feed) == Swupdate.TrySend(DoAll(start, waited), block, restart)
    {
      waited := [];
      var ok := EnsureOpen(restart);
      if !ok { return FeedError, []; }
      SomeMovesUnblock(View());
      var ms :| !DoAll(View(), ms).Full();
      MovesKeepInv(View(), ms);
      Background(ms);
      waited := ms;
      SendKeepsInv(View(), block, restart);
      feed := TrySend(block, restart);
    }

    method Eof()
      modifies this
      ensures View() == Swupdate.Eof(old(View()))
    {
      tx := false;
    }

    method PollStatus() returns (r: Option<Verdict>)
      modifies this
      ensures (View(), r) == Swupdate.PollStatus(old(View()))
    {
      if terminal.Some? { return terminal; }
      if !status { return Some(Failure); }
      if outcome.None? { return None; }
      status, terminal := false, outcome;
      return outcome;
    }

    /** `finished`: suspends until the status task has returned. */
    method Finished() returns (v: Verdict, ghost waited: seq<Move>)
      modifies this
      ensures (View(), Some(v)) == Swupdate.PollStatus(DoAll(old(View()), waited))
    {
      SomeMovesSettle(View());
      var ms :| Swupdate.PollStatus(DoAll(View(), ms)).1.Some?;
      Background(ms);
      var r := PollStatus();
      v, waited := r.value, ms;
    }

    method Abort()
      modifies this
      ensures View() == Swupdate.Abort(old(View()))
    {
      tx := false;
      if status {
        status := false;
        if drain.Connecting? { drain := NotSpawned; }
      }
      terminal := None;
    }

    /** Anything may happen in the background. */
    method Yield() returns (ghost moves: seq<Move>)
      modifies this
      ensures View() == DoAll(old(View()), moves)
    {
      var ms: seq<Move> := *;
      moves := ms;
      Background(ms);
    }

    /** The moves the background tasks make while the caller is suspended. */
    method Background(ms: seq<Move>)
      modifies this
      ensures View() == DoAll(old(View()), ms)
    {
      var s := DoAll(View(), ms);
      DoAllKeepsBlockSize(View(), ms);
      tx, status, terminal, queue, drain := s.tx, s.status, s.terminal, s.queue, s.drain;
      outcome, fed, discarded, written := s.outcome, s.fed, s.discarded, s.written;
    }
  }

  lemma {:induction false} DoAllKeepsBlockSize(s: Session, ms: seq<Move>)
    ensures DoAll(s, ms).maxBlock == s.maxBlock
    decreases |ms|
  {
    if ms != [] { DoAllKeepsBlockSize(Do(s, ms[0]), ms[1..]); }
  }

  /**
   The drain loop, given every block received up to the sender's drop and the number of bytes the
   backend takes before a write fails.  The writer is closed exactly when nothing was lost.
   */
  method DrainData(blocks: seq<Bytes>, accepts: nat) returns (written: Bytes, closed: bool)
    ensures written == Concat(blocks)[..Min(accepts, |Concat(blocks)|)]
    ensures closed <==> |Concat(blocks)| <= accepts
  {
    written := [];
    var i := 0;
    while i < |blocks|
      invariant 0 <= i <= |blocks|
      invariant written == Concat(blocks[..i]) && |written| <= accepts
    {
      assert blocks == blocks[..i] + blocks[i..] && blocks[i..] == [blocks[i]] + blocks[i + 1..];
      ConcatAppend(blocks[..i], blocks[i..]);
      if |written| + |blocks[i]| > accepts {
        return written + blocks[i][..accepts - |written|], false;
      }
      ConcatSnoc(blocks[..i], blocks[i]);
      assert blocks[..i + 1] == blocks[..i] + [blocks[i]];
      written := written + blocks[i];
      i := i + 1;
    }
    assert blocks[..i] == blocks;
    closed := true;
  }
}
