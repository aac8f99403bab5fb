/** How a manifestation ends, and what a reported success is worth. */
module DfuManifest {
  import opened ByteSeq
  import opened Swupdate
  import opened Dfu
  import opened DfuStream
  import opened DfuSafety
  import opened DfuFailure
  import Crc32

  /** The poll found a success and ended the manifestation. */
  predicate ReportsSuccess(d: Handler, restart: bool) {
    d.state.Manifest? && Poll(d, restart).0.state.ManifestSync?
  }

  /** The session the verdict came from, as the poll left it before replacing it. */
  function Judged(d: Handler, restart: bool): Session { PushPending(d, restart).0.sink }

  lemma SuccessExactly(d: Handler, firmware: Bytes, restart: bool)
    requires ManifestInv(d, firmware) && Held(d) && ReportsSuccess(d, restart)
    ensures Judged(d, restart).Handed() <= firmware
    ensures Judged(d, restart).Handed() == firmware <==> d.pending.None? || !d.sink.Full()
    ensures Judged(d, restart).drain.ShutDown? ==> Judged(d, restart).written == firmware
  {
    hide PushPending, Concat;
    PushNotRefused(d, restart);
    PushInManifest(d, restart);
    PushKeepsHeld(d, restart);
    var e := PushPending(d, restart).0;
    assert e.sink.Handed() + PendingBytes(e) == firmware;
    assert e.sink.Handed() + [] == e.sink.Handed();
    assert e.pending.Some? ==> |e.sink.Handed() + PendingBytes(e)| > |e.sink.Handed()|;
    assert e.sink.drain.ShutDown? ==> e.sink.discarded == [] && e.sink.fed + [] == e.sink.fed;
    StuckOnlyWhenFull(d, restart);
  }

  lemma StuckOnlyWhenFull(d: Handler, restart: bool)
    ensures PushPending(d, restart).0.pending.Some? <==> d.pending.Some? && d.sink.Full()
  {
    hide TrySend;
  }

  /**
   Over whole runs.  When the handler reports success, the session had been handed the whole firmware if and
   only if no block was held by a full queue at that moment; otherwise the held block is dropped and only a
   proper prefix was handed over.  If the writer was closed, the backend has exactly the firmware.
   */
  lemma SuccessMeansHandedOver(c: Config, inputs: seq<Input>, restart: bool, wait: seq<Input>, again: bool)
    ensures var e := AfterWait(c, inputs, restart, wait);
            Manifested(c, inputs, restart, wait) && ReportsSuccess(e, again) ==>
            && Judged(e, again).Handed() <= Firmware(Payload(inputs))
            && (Judged(e, again).Handed() == Firmware(Payload(inputs)) <==> e.pending.None? || !e.sink.Full())
            && (Judged(e, again).drain.ShutDown? ==> Judged(e, again).written == Firmware(Payload(inputs)))
  {
    hide Manifested, AfterWait, ManifestInv, FileHasSuffix, Held, Judged, Payload;
    var e := AfterWait(c, inputs, restart, wait);
    if Manifested(c, inputs, restart, wait) && ReportsSuccess(e, again) {
      ManifestHolds(c, inputs, restart, wait);
      HeldAfterWait(c, inputs, restart, wait);
      SuccessExactly(e, Firmware(Payload(inputs)), again);
    }
  }

  lemma HeldAfterWait(c: Config, inputs: seq<Input>, restart: bool, wait: seq<Input>)
    ensures Held(AfterWait(c, inputs, restart, wait))
  {
    hide Step, Held;
    var end := Req(DnloadEmpty, restart);
    RunSnoc(Fresh(c), inputs, end);
    RunAppend(Fresh(c), inputs + [end], wait);
    RunKeepsHeld(c, inputs + [end] + wait);
  }

  /**
   A zero-length DNLOAD sent again goes on waiting for the firmware's verdict if and only if the verdict is not
   there yet.  If it is, it is forgotten: the handler stays in Manifest on a session that was never opened, and
   the next poll reports a failure, whatever SWUpdate had said.
   */
  lemma EndAgainExactly(d: Handler, firmware: Bytes, restart: bool, next: bool)
    requires d.state.Manifest? && ManifestInv(d, firmware)
    ensures var e := Step(d, DnloadEmpty, restart).d;
            && e.state.Manifest?
            && (e.sink.Opened() && ManifestInv(e, firmware) <==> Undecided(d.sink))
            && (e.sink.Opened() <==> Undecided(d.sink))
            && (!Undecided(d.sink) ==> e.sink.Handed() == [] && Poll(e, next).1.SwFailed?)
  {
    hide Poll, StartManifest, Inv;
    PollInManifest(d, firmware, restart);
    PollStaysExactly(d, firmware, restart);
    var a := Poll(d, restart).0;
    if a.state.Manifest? {
      ServeInManifest(a, firmware, DnloadEmpty, restart);
      EndStays(a, restart);
      StaysOpened(d, firmware, restart);
      EndKeepsOpened(a, restart);
    } else {
      VerdictLeaves(d, restart);
      EndOnNewSession(d.config, restart, next);
      EndForgetsState(a, restart);
    }
  }

  lemma StaysOpened(d: Handler, firmware: Bytes, restart: bool)
    requires d.state.Manifest? && ManifestInv(d, firmware) && Undecided(d.sink)
    ensures Poll(d, restart).0.sink.Opened()
  {
    hide PushPending, Concat;
    PushNotRefused(d, restart);
    PushKeepsVerdict(d, firmware, restart);
  }

  lemma EndKeepsOpened(a: Handler, restart: bool)
    requires a.tail == [] && a.sink.Opened()
    ensures StartManifest(a, restart).0.sink.Opened()
  {
    hide QueueCapacity;
  }

  lemma EndStays(a: Handler, restart: bool)
    requires a.tail == []
    ensures StartManifest(a, restart).0.state.Manifest?
  {
    hide TrySend;
  }

  lemma VerdictLeaves(d: Handler, restart: bool)
    requires d.state.Manifest? && d.tail == [] && PushPending(d, restart).1 && !Poll(d, restart).0.state.Manifest?
    ensures var a := Poll(d, restart).0; a == Fresh(d.config).(state := a.state, status := a.status)
  {
    hide TrySend;
  }

  lemma EndForgetsState(a: Handler, restart: bool)
    requires a == Fresh(a.config).(state := a.state, status := a.status)
    ensures StartManifest(a, restart) == StartManifest(Fresh(a.config), restart)
  {
  }

  lemma EndOnNewSession(c: Config, restart: bool, next: bool)
    ensures var e := StartManifest(Fresh(c), restart).0;
            e.state.Manifest? && !e.sink.Opened() && e.sink.Handed() == [] && Poll(e, next).1.SwFailed?
  {
  }

  // --- A run in which success is reported early -------------------------------------

  function Zeros(n: nat): Bytes { if n == 0 then [] else [0] + Zeros(n - 1) }

  lemma {:induction false} ZerosLen(n: nat)
    ensures |Zeros(n)| == n && forall i :: 0 <= i < n ==> Zeros(n)[i] == 0
  {
    if n > 0 { ZerosLen(n - 1); }
  }

  /** A 17-byte block, then blocks of one byte: `k` blocks end up in the queue. */
  function Filling(k: nat): seq<Input>
    requires k > 0
  {
    if k == 1 then [Req(Dnload(Zeros(17), []), false)] else Filling(k - 1) + [Req(Dnload([0], []), false)]
  }

  /** `k` blocks wait in the queue of a session that is still connecting, behind a window of zeros. */
  predicate Filled(d: Handler, c: Config, k: nat) {
    && d.config == c && d.pending.None? && d.state.DnloadSync?
    && |d.tail| == SUFFIX_LEN && (forall i :: 0 <= i < SUFFIX_LEN ==> d.tail[i] == 0)
    && d.sink.tx && d.sink.status && d.sink.drain.Connecting? && d.sink.outcome.None? && d.sink.terminal.None?
    && d.sink.maxBlock == c.transferSize && |d.sink.queue| == k
  }

  lemma OneMore(d: Handler, c: Config, k: nat)
    requires Filled(d, c, k) && k < QueueCapacity(c.transferSize)
    ensures var out := Step(d, Dnload([0], []), false); out.note.Fine? && Filled(out.d, c, k + 1)
  {
    hide Crc32.Update, QueueCapacity, HasValidSuffix;
  }

  lemma {:induction false} FillingFills(c: Config, k: nat)
    requires 0 < k <= QueueCapacity(c.transferSize)
    ensures CleanRun(Fresh(c), Filling(k)) && Filled(Run(Fresh(c), Filling(k)), c, k)
  {
    hide Step, QueueCapacity, Run, CleanRun, Payload;
    ZerosLen(17);
    if k == 1 {
      FirstBlock(c, Zeros(17));
    } else {
      FillingFills(c, k - 1);
      OneMore(Run(Fresh(c), Filling(k - 1)), c, k - 1);
      RunSnoc(Fresh(c), Filling(k - 1), Req(Dnload([0], []), false));
    }
  }

  lemma EndOnFullQueue(d: Handler, c: Config)
    requires Filled(d, c, QueueCapacity(c.transferSize))
    ensures var out := Step(d, DnloadEmpty, false);
            && out.note.Fine?
            && out.d == d.(state := Manifest, tail := [], pending := Some(d.tail), status := Ok)
  {
    hide Crc32.Update, QueueCapacity;
    assert d.tail[8..11][0] == 0;
  }

  lemma EarlyVerdict(d: Handler, c: Config)
    requires Filled(d, c, QueueCapacity(c.transferSize))
    ensures var m := d.(state := Manifest, tail := [], pending := Some(d.tail), status := Ok);
            var e := Take(Take(m, Env(ConnectOk)).d, Env(Settle(Success))).d;
            && ReportsSuccess(e, false) && e.pending.Some? && e.sink.Full()
            && Take(m, Env(ConnectOk)).d.state.Manifest?
  {
    hide QueueCapacity;
  }

  /** For every configuration: fill the queue, end the file, let SWUpdate connect and finish at once. */
  lemma SuccessWithHeldBlock(c: Config)
    ensures var inputs, wait := Filling(QueueCapacity(c.transferSize)), [Env(ConnectOk), Env(Settle(Success))];
            && Manifested(c, inputs, false, wait)
            && ReportsSuccess(AfterWait(c, inputs, false, wait), false)
            && Judged(AfterWait(c, inputs, false, wait), false).Handed() != Firmware(Payload(inputs))
  {
    hide Step, QueueCapacity, CleanRun, Filled, Poll, Take, Judged, ReportsSuccess, Payload, FileHasSuffix;
    CapacityAtLeastTwo(c.transferSize);
    var k := QueueCapacity(c.transferSize);
    var inputs := Filling(k);
    FillingFills(c, k);
    var d := Run(Fresh(c), inputs);
    EndOnFullQueue(d, c);
    EarlyVerdict(d, c);
    var m := Step(d, DnloadEmpty, false).d;
    var one, two := [Env(ConnectOk)], [Env(ConnectOk), Env(Settle(Success))];
    assert two[..1] == one && one[..0] == [];
    assert Run(m, []) == m && KeepsWaiting(m, []);
    assert Run(m, one) == Take(m, Env(ConnectOk)).d && KeepsWaiting(m, one);
    assert KeepsWaiting(m, two);
    SuccessMeansHandedOver(c, inputs, false, two, false);
  }

  /** The same with room in the queue: success is there, and a second zero-length DNLOAD turns it into a failure. */
  lemma VerdictIsForgotten(c: Config)
    ensures var m := Step(Run(Fresh(c), Filling(1)), DnloadEmpty, false).d;
            var e := Take(Take(m, Env(ConnectOk)).d, Env(Settle(Success))).d;
            ReportsSuccess(e, false) && Poll(Step(e, DnloadEmpty, false).d, false).1.SwFailed?
  {
    hide Step, Filled, Poll, Take, ReportsSuccess, ManifestInv, QueueCapacity, Run, CleanRun, Filling, StreamInv;
    CapacityAtLeastTwo(c.transferSize);
    FillingFills(c, 1);
    var d := Run(Fresh(c), Filling(1));
    var m := Step(d, DnloadEmpty, false).d;
    EndWithRoom(d, c);
    var x := Take(m, Env(ConnectOk)).d;
    var e := Take(x, Env(Settle(Success))).d;
    SettledEarly(d, c);
    CleanRunStreams(c, Filling(1));
    ManifestStarts(d, Payload(Filling(1)), false);
    var fw := Firmware(Payload(Filling(1)));
    WaitKeepsManifest(m, fw, Env(ConnectOk));
    WaitKeepsManifest(x, fw, Env(Settle(Success)));
    SuccessLeaves(e);
    PollStaysExactly(e, fw, false);
    EndAgainExactly(e, fw, false, false);
  }

  lemma SuccessLeaves(e: Handler)
    requires ReportsSuccess(e, false)
    ensures e.state.Manifest? && !Poll(e, false).0.state.Manifest?
  {
    hide Poll;
  }

  lemma EndWithRoom(d: Handler, c: Config)
    requires Filled(d, c, 1)
    ensures Step(d, DnloadEmpty, false).note.Fine? && Step(d, DnloadEmpty, false).d.state.Manifest?
  {
    hide Crc32.Update, QueueCapacity;
    CapacityAtLeastTwo(c.transferSize);
    assert d.tail[8..11][0] == 0;
  }

  lemma SettledEarly(d: Handler, c: Config)
    requires Filled(d, c, 1)
    ensures var m := Step(d, DnloadEmpty, false).d;
            var x := Take(m, Env(ConnectOk)).d;
            x.state.Manifest? && ReportsSuccess(Take(x, Env(Settle(Success))).d, false)
  {
    hide Crc32.Update, QueueCapacity;
    CapacityAtLeastTwo(c.transferSize);
    assert d.tail[8..11][0] == 0;
  }
}
