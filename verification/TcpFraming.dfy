/**
 AOSP fastboot "TCP Protocol v1" framing: every packet is an eight-byte big-endian length and that many bytes.
 A read returns any positive number of the bytes asked for, so the segmentation of the stream is arbitrary.
 */
module TcpFraming {
  import opened ByteSeq

  const HEADER_LEN: nat := 8
  const MAX_COMMAND_LEN: nat := 4096
  const RECV_BUFFER_SIZE: nat := 128 * 1024

  function Encode(packet: Bytes): Bytes { BeBytes(|packet|, HEADER_LEN) + packet }

  function EncodeAll(frames: seq<Bytes>): Bytes {
    if frames == [] then [] else Encode(frames[0]) + EncodeAll(frames[1..])
  }

  datatype Command = Packet(data: Bytes) | Disconnected | Invalid

  /** What the next command frame of `s` is, and what follows it. */
  function Decode(s: Bytes): (Command, Bytes) {
    if s == [] then (Disconnected, s)
    else if |s| < HEADER_LEN then (Invalid, [])
    else
      var n := BeValue(s[..HEADER_LEN]);
      var rest := s[HEADER_LEN..];
      if n > MAX_COMMAND_LEN then (Invalid, rest)
      else if |rest| < n then (Invalid, [])
      else (Packet(rest[..n]), rest[n..])
  }

  lemma HeaderDecodes(n: nat, rest: Bytes)
    requires n < Pow256(HEADER_LEN)
    ensures var s := BeBytes(n, HEADER_LEN) + rest;
            BeValue(s[..HEADER_LEN]) == n && s[HEADER_LEN..] == rest
  {
    hide BeBytes, BeValue, Pow256;
    BeRoundTrip(n, HEADER_LEN);
    var s := BeBytes(n, HEADER_LEN) + rest;
    assert s[..HEADER_LEN] == BeBytes(n, HEADER_LEN);
  }

  /** A packet up to the command limit survives the round trip; a longer one is refused. */
  lemma CommandRoundTrip(packet: Bytes, rest: Bytes)
    requires |packet| < 0x1_0000_0000_0000_0000
    ensures Decode(Encode(packet) + rest).0 == Packet(packet) <==> |packet| <= 4096
    ensures |packet| <= 4096 ==> Decode(Encode(packet) + rest).1 == rest
    ensures |packet| > 4096 ==> Decode(Encode(packet) + rest).0.Invalid?
  {
    Places();
    hide BeBytes, BeValue, Pow256;
    var s := Encode(packet) + rest;
    assert s == BeBytes(|packet|, HEADER_LEN) + (packet + rest);
    HeaderDecodes(|packet|, packet + rest);
    assert (packet + rest)[..|packet|] == packet && (packet + rest)[|packet|..] == rest;
  }

  /** A stream that ends inside a packet is a protocol error; only one that ends between packets is a disconnect. */
  lemma CutPacket(packet: Bytes, k: nat)
    requires |packet| <= 4096 && k < |Encode(packet)|
    ensures Decode(Encode(packet)[..k]).0 == if k == 0 then Disconnected else Invalid
  {
    Places();
    hide BeBytes, BeValue, Pow256;
    var s := Encode(packet)[..k];
    if k >= HEADER_LEN {
      var body := packet[..k - HEADER_LEN];
      assert s == BeBytes(|packet|, HEADER_LEN) + body;
      HeaderDecodes(|packet|, body);
    }
  }

  // --- The data phase ---------------------------------------------------------------

  /** The payload of a data phase, what follows it, and how much of the last frame was left unread. */
  datatype Drained = Drained(payload: Bytes, rest: Bytes, unread: nat) | Broken(prefix: Bytes)

  /** `d` with `front` read before it. */
  function After(front: Bytes, d: Drained): Drained {
    match d
    case Drained(payload, rest, unread) => Drained(front + payload, rest, unread)
    case Broken(prefix) => Broken(front + prefix)
  }

  /** Reads `remaining` payload bytes out of the frames of `s`, `inFrame` bytes of the current one being unread. */
  function Drain(s: Bytes, remaining: nat, inFrame: nat): (d: Drained)
    ensures d.Drained? ==> |d.payload| == remaining
    ensures d.Broken? ==> |d.prefix| < remaining
    decreases |s|, remaining
  {
    if remaining == 0 then Drained([], s, inFrame)
    else if inFrame == 0 then
      if |s| < HEADER_LEN || BeValue(s[..HEADER_LEN]) == 0 then Broken([])
      else Drain(s[HEADER_LEN..], remaining, BeValue(s[..HEADER_LEN]))
    else
      var n := Min(inFrame, remaining);
      if |s| < n then Broken(s)
      else
        After(s[..n], Drain(s[n..], remaining - n, inFrame - n))
  }

  /** One unfolding at a frame boundary. */
  lemma DrainAtHeader(s: Bytes, remaining: nat)
    requires remaining > 0
    ensures Drain(s, remaining, 0) ==
            if |s| < HEADER_LEN || BeValue(s[..HEADER_LEN]) == 0 then Broken([])
            else Drain(s[HEADER_LEN..], remaining, BeValue(s[..HEADER_LEN]))
  {
    hide BeValue;
  }

  /** One unfolding inside a frame. */
  lemma DrainInFrame(s: Bytes, remaining: nat, inFrame: nat)
    requires remaining > 0 && inFrame > 0
    ensures var n := Min(inFrame, remaining);
            Drain(s, remaining, inFrame) ==
              if |s| < n then Broken(s) else After(s[..n], Drain(s[n..], remaining - n, inFrame - n))
  {
    hide BeValue;
  }

  lemma AfterAppend(x: Bytes, y: Bytes, d: Drained)
    ensures After(x, After(y, d)) == After(x + y, d)
  {
    match d
    case Drained(payload, _, _) => assert x + (y + payload) == x + y + payload;
    case Broken(prefix) => assert x + (y + prefix) == x + y + prefix;
  }

  /** Reading a piece first and the rest later is the same as reading at once. */
  lemma {:induction false} DrainSplit(s: Bytes, remaining: nat, inFrame: nat, k: nat)
    requires 0 < k <= Min(inFrame, remaining) && k <= |s|
    ensures Drain(s, remaining, inFrame) == After(s[..k], Drain(s[k..], remaining - k, inFrame - k))
  {
    hide Drain;
    var n := Min(inFrame, remaining);
    DrainInFrame(s, remaining, inFrame);
    if k < n {
      DrainInFrame(s[k..], remaining - k, inFrame - k);
      if |s| >= n {
        assert s[k..][n - k..] == s[n..];
        assert s[..k] + s[k..][..n - k] == s[..n];
        var inner := Drain(s[n..], remaining - n, inFrame - n);
        AfterAppend(s[..k], s[k..][..n - k], inner);
      } else {
        assert s[..k] + s[k..] == s;
      }
    }
  }

  function TotalLen(frames: seq<Bytes>): nat { if frames == [] then 0 else |frames[0]| + TotalLen(frames[1..]) }

  predicate FitHeader(frames: seq<Bytes>) { forall f :: f in frames ==> |f| < Pow256(HEADER_LEN) }

  /** A non-empty frame that lies within the total is read whole. */
  lemma DrainFrame(f: Bytes, tail: Bytes, total: nat)
    requires f != [] && |f| < Pow256(HEADER_LEN) && |f| <= total
    ensures Drain(Encode(f) + tail, total, 0) == After(f, Drain(tail, total - |f|, 0))
  {
    hide BeBytes, BeValue, Pow256, Drain;
    var s := Encode(f) + tail;
    assert s == BeBytes(|f|, HEADER_LEN) + (f + tail);
    HeaderDecodes(|f|, f + tail);
    DrainAtHeader(s, total);
    DrainInFrame(f + tail, total, |f|);
    assert (f + tail)[..|f|] == f && (f + tail)[|f|..] == tail;
  }

  /** Non-empty frames that sum to the announced total are read back exactly, up to the next frame boundary. */
  lemma {:induction false} FramesDrain(frames: seq<Bytes>, rest: Bytes)
    requires FitHeader(frames) && forall f :: f in frames ==> f != []
    ensures Drain(EncodeAll(frames) + rest, TotalLen(frames), 0) == Drained(Concat(frames), rest, 0)
  {
    hide Encode, Pow256, Drain;
    if frames == [] {
      assert EncodeAll(frames) + rest == rest;
      DrainNothing(rest, 0);
    } else {
      var f, more := frames[0], frames[1..];
      assert f in frames && forall g :: g in more ==> g in frames;
      FramesDrain(more, rest);
      assert EncodeAll(frames) + rest == Encode(f) + (EncodeAll(more) + rest);
      DrainFrame(f, EncodeAll(more) + rest, TotalLen(frames));
    }
  }

  /** `k` leading frames are non-empty and sum to the total. */
  predicate Announces(frames: seq<Bytes>, total: nat, k: nat) {
    k <= |frames| && TotalLen(frames[..k]) == total && forall i :: 0 <= i < k ==> frames[i] != []
  }

  /** The data phase ends at a frame boundary. */
  predicate EndsAtBoundary(d: Drained) { d.Drained? && d.unread == 0 }

  /**
   The condition is exact: out of well-formed frames, the data phase ends at a frame boundary if and only if
   some leading frames are all non-empty and sum to the announced total.
   */
  lemma {:induction false} DrainsExactlyWhenAnnounced(frames: seq<Bytes>, total: nat)
    requires FitHeader(frames)
    ensures EndsAtBoundary(Drain(EncodeAll(frames), total, 0)) <==> exists k :: Announces(frames, total, k)
  {
    hide Encode, Drain, Pow256, Announces;
    if total == 0 {
      NothingAnnounced(frames);
      assert EndsAtBoundary(Drain(EncodeAll(frames), 0, 0)) by { DrainNothing(EncodeAll(frames), 0); }
    } else if frames == [] {
      DrainAtHeader([], total);
      NoneAnnounced(frames, total);
    } else {
      var f, more := frames[0], frames[1..];
      assert f in frames && forall g :: g in more ==> g in frames;
      if f == [] || |f| > total {
        FrameDoesNotFit(f, EncodeAll(more), total);
        NoneAnnounced(frames, total);
      } else {
        DrainsExactlyWhenAnnounced(more, total - |f|);
        AnnouncesShift(frames, more, total, total - |f|);
        DrainFrame(f, EncodeAll(more), total);
      }
    }
  }

  lemma DrainNothing(s: Bytes, inFrame: nat)
    ensures Drain(s, 0, inFrame) == Drained([], s, inFrame)
  {
  }

  /** An empty frame breaks the data phase, and one that goes beyond the total is left half read. */
  lemma FrameDoesNotFit(f: Bytes, tail: Bytes, total: nat)
    requires 0 < total && |f| < Pow256(HEADER_LEN) && (f == [] || |f| > total)
    ensures !EndsAtBoundary(Drain(Encode(f) + tail, total, 0))
  {
    hide BeBytes, BeValue, Pow256, Drain;
    var s := Encode(f) + tail;
    assert s == BeBytes(|f|, HEADER_LEN) + (f + tail);
    HeaderDecodes(|f|, f + tail);
    DrainAtHeader(s, total);
    if f != [] {
      DrainInFrame(f + tail, total, |f|);
      DrainNothing((f + tail)[total..], |f| - total);
    }
  }

  lemma NothingAnnounced(frames: seq<Bytes>)
    ensures Announces(frames, 0, 0)
  {
    assert frames[..0] == [];
  }

  lemma NoneAnnounced(frames: seq<Bytes>, total: nat)
    requires 0 < total && (frames == [] || frames[0] == [] || |frames[0]| > total)
    ensures forall k: nat :: !Announces(frames, total, k)
  {
    forall k: nat ensures !Announces(frames, total, k) {
      if k == 0 || frames == [] {
        if k <= |frames| { assert frames[..k] == []; }
      } else if k <= |frames| {
        assert frames[..k][0] == frames[0];
      }
    }
  }

  lemma AnnouncesShift(frames: seq<Bytes>, more: seq<Bytes>, total: nat, left: nat)
    requires frames != [] && frames[0] != [] && more == frames[1..] && total == |frames[0]| + left
    ensures (exists k :: Announces(frames, total, k)) <==> (exists k :: Announces(more, left, k))
  {
    if k: nat :| Announces(frames, total, k) {
      assert k > 0 by { assert frames[..0] == []; }
      assert frames[..k][0] == frames[0] && frames[..k][1..] == more[..k - 1];
      assert Announces(more, left, k - 1);
    }
    if k: nat :| Announces(more, left, k) {
      assert frames[..k + 1][0] == frames[0] && frames[..k + 1][1..] == more[..k];
      assert Announces(frames, total, k + 1);
    }
  }

  // --- The connection -----------------------------------------------------------------

  datatype HeaderResult = Length(n: nat) | Eof | Truncated

  /** One direction of a connection: everything the peer will send before it closes, and how much was read. */
  class Connection {
    const incoming: Bytes
    var pos: nat

    ghost predicate Valid()
      reads this
    {
      pos <= |incoming|
    }

    function Ahead(): Bytes
      reads this
      requires Valid()
    {
      incoming[pos..]
    }

    constructor (incoming: Bytes)
      ensures Valid() && Ahead() == incoming
    {
      this.incoming := incoming;
      pos := 0;
    }

    /** A stream read: some positive number of bytes, or none exactly when the peer has closed. */
    method Read(max: nat) returns (bytes: Bytes)
      requires Valid()
      modifies this
      ensures Valid() && old(Ahead()) == bytes + Ahead() && pos == old(pos) + |bytes|
      ensures |bytes| <= max && (bytes == [] <==> max == 0 || old(Ahead()) == [])
    {
      var available := Min(max, |incoming| - pos);
      if available == 0 { return []; }
      assert 1 <= available;
      var n :| 1 <= n <= available;
      bytes := incoming[pos..pos + n];
      pos := pos + n;
    }

    /** `read_header`, however the eight bytes arrive. */
    method ReadHeader() returns (r: HeaderResult)
      requires Valid()
      modifies this
      ensures Valid() && pos >= old(pos)
      ensures r.Eof? <==> old(Ahead()) == []
      ensures r.Truncated? <==> 0 < |old(Ahead())| < HEADER_LEN
      ensures r.Length? ==> r.n == BeValue(old(Ahead())[..HEADER_LEN]) && Ahead() == old(Ahead())[HEADER_LEN..]
    {
      hide BeValue;
      ghost var start := Ahead();
      var buf: Bytes := [];
      assert [] + start == start;
      while |buf| < HEADER_LEN
        invariant Valid() && |buf| <= HEADER_LEN && start == buf + Ahead() && pos >= old(pos)
        decreases HEADER_LEN - |buf|
      {
        var got := Read(HEADER_LEN - |buf|);
        if got == [] {
          assert |start| == |buf|;
          return if buf == [] then Eof else Truncated;
        }
        assert buf + (got + Ahead()) == buf + got + Ahead();
        buf := buf + got;
      }
      assert start[..HEADER_LEN] == buf && start[HEADER_LEN..] == Ahead();
      return Length(BeValue(buf));
    }

    /** `read_exact`. */
    method ReadExact(n: nat) returns (ok: bool, bytes: Bytes)
      requires Valid()
      modifies this
      ensures Valid() && (ok <==> |old(Ahead())| >= n) && pos >= old(pos)
      ensures ok ==> bytes == old(Ahead())[..n] && Ahead() == old(Ahead())[n..]
      ensures !ok ==> Ahead() == []
    {
      ghost var start := Ahead();
      bytes := [];
      assert [] + start == start;
      while |bytes| < n
        invariant Valid() && |bytes| <= n && start == bytes + Ahead() && pos >= old(pos)
        decreases n - |bytes|
      {
        var got := Read(n - |bytes|);
        if got == [] { return false, bytes; }
        assert bytes + (got + Ahead()) == bytes + got + Ahead();
        bytes := bytes + got;
      }
      assert start[..n] == bytes && start[n..] == Ahead();
      ok := true;
    }

    /** `recv_command` reads exactly the next command frame, independently of the segmentation. */
    method RecvCommand() returns (c: Command)
      requires Valid()
      modifies this
      ensures Valid() && c == Decode(old(Ahead())).0 && pos >= old(pos)
      ensures c.Packet? ==> pos > old(pos)
      ensures c.Packet? ==> Ahead() == Decode(old(Ahead())).1
    {
      var header := ReadHeader();
      match header {
        case Eof => return Disconnected;
        case Truncated => return Invalid;
        case Length(n) =>
          if n > MAX_COMMAND_LEN { return Invalid; }
          var ok, bytes := ReadExact(n);
          return if ok then Packet(bytes) else Invalid;
      }
    }
  }

  /** The reader of one data phase. */
  class Source {
    const conn: Connection
    var remaining: nat
    var inFrame: nat

    ghost predicate Valid()
      reads this, conn
    {
      conn.Valid()
    }

    ghost function Expected(): Drained
      reads this, conn
      requires Valid()
    {
      Drain(conn.Ahead(), remaining, inFrame)
    }

    constructor (conn: Connection, total: nat)
      requires conn.Valid()
      ensures Valid() && this.conn == conn && remaining == total && inFrame == 0
    {
      this.conn := conn;
      remaining, inFrame := total, 0;
    }

    /**
     `read_block`: the next piece of the payload, of any size the socket gives.  It fails exactly where the
     frames do, and each block brings the end strictly closer.
     */
    method ReadBlock() returns (ok: bool, block: Bytes)
      requires Valid() && remaining > 0
      modifies this, conn
      ensures Valid() && conn.pos >= old(conn.pos)
      ensures ok ==> 0 < |block| <= old(remaining) && |block| <= 128 * 1024 && remaining == old(remaining) - |block|
      ensures ok ==> old(Expected()) == After(block, Expected())
      ensures !ok ==> old(Expected()) == Broken([]) && remaining == old(remaining)
    {
      hide BeValue, Drain, After;
      ghost var start := conn.Ahead();
      if inFrame == 0 {
        DrainAtHeader(start, remaining);
        var header := conn.ReadHeader();
        match header {
          case Eof => return false, [];
          case Truncated => return false, [];
          case Length(n) => inFrame := n;
        }
        if inFrame == 0 {
          // An empty frame: the zero-length read below is taken for a closed connection.
          return false, [];
        }
      }
      ghost var s := conn.Ahead();
      block := conn.Read(Min(Min(inFrame, remaining), RECV_BUFFER_SIZE));
      if block == [] {
        DrainInFrame(s, remaining, inFrame);
        return false, [];
      }
      DrainSplit(s, remaining, inFrame, |block|);
      assert s[..|block|] == block && s[|block|..] == conn.Ahead();
      remaining, inFrame := remaining - |block|, inFrame - |block|;
      ok := true;
    }

    /** The whole data phase: the blocks concatenate to the payload whatever their sizes were. */
    method ReadAll() returns (ok: bool, payload: Bytes)
      requires Valid()
      modifies this, conn
      ensures Valid()
      ensures old(Expected()).Drained? <==> ok
      ensures ok ==> payload == old(Expected()).payload && remaining == 0
                     && conn.Ahead() == old(Expected()).rest && inFrame == old(Expected()).unread
      ensures !ok ==> payload == old(Expected()).prefix
      decreases remaining
    {
      payload := [];
      while remaining > 0
        invariant Valid()
        invariant old(Expected()) == After(payload, Expected())
        decreases remaining
      {
        var more, block := ReadBlock();
        if !more {
          assert payload + [] == payload;
          return false, payload;
        }
        AfterAppend(payload, block, Expected());
        payload := payload + block;
      }
      assert payload + [] == payload;
      ok := true;
    }
  }
}
