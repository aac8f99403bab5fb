/** The FunctionFS descriptor block: its encoder, and the walk by which the kernel reads it back. */
module Ffs {
  import opened ByteSeq

  const MAGIC_V2: nat := 3
  const INTERFACE: byte := 0x04
  const ENDPOINT: byte := 0x05
  const SS_ENDPOINT_COMP: byte := 0x30
  const INTERFACE_ASSOC: byte := 0x0B
  const ENDPOINT_SIZE: nat := 7
  const AUDIO_ENDPOINT_SIZE: nat := 9

  const U16: nat := 0x1_0000
  const U32: nat := 0x1_0000_0000

  type u16 = x: int | 0 <= x < 0x1_0000
  type u32 = x: int | 0 <= x < 0x1_0000_0000

  /** A file descriptor of an open file; these are never negative. */
  type Fd = x: int | 0 <= x < 0x8000_0000

  type Id = s: Bytes | |s| == 8 witness [0, 0, 0, 0, 0, 0, 0, 0]

  datatype Audio = Audio(refresh: byte, synchAddress: byte)

  datatype EndpointDesc = EndpointDesc(address: byte, attributes: byte, maxPacketSize: u16, interval: byte, audio: Option<Audio>)

  datatype Desc =
    | Interface(number: byte, alternate: byte, endpoints: byte, class_: byte, subClass: byte, protocol: byte, name: byte)
    | Endpoint(endpoint: EndpointDesc)
    | SsEndpointComp(maxBurst: byte, attributes: byte, bytesPerInterval: u16)
    | InterfaceAssoc(first: byte, count: byte, class_: byte, subClass: byte, protocol: byte, name: byte)
    | Custom(kind: byte, data: Bytes)

  datatype Compat = Compat(firstInterface: byte, id: Id, subId: Id)

  datatype Prop = Prop(dataType: u32, name: Bytes, data: Bytes)

  datatype OsExt = ExtCompat(compats: seq<Compat>) | ExtProp(props: seq<Prop>)

  datatype OsDesc = OsDesc(interface_: byte, ext: OsExt)

  /** Flags a function can set; the others are fixed by the encoder. */
  datatype Flags = Flags(virtualAddr: bool, allCtrlRecip: bool, config0Setup: bool)

  datatype Descs = Descs(flags: Flags, eventfd: Option<Fd>, fs: seq<Desc>, hs: seq<Desc>, ss: seq<Desc>, os: seq<OsDesc>)

  // --- Encoding -------------------------------------------------------------------

  function EndpointBody(e: EndpointDesc): Bytes {
    [ENDPOINT, e.address, e.attributes] + LeBytes(e.maxPacketSize, 2) + [e.interval] +
    if e.audio.Some? then [e.audio.value.refresh, e.audio.value.synchAddress] else []
  }

  /** Everything behind the length byte. */
  function Body(d: Desc): (b: Bytes)
    ensures |b| >= 1
  {
    match d
    case Interface(n, a, e, c, s, p, name) => [INTERFACE, n, a, e, c, s, p, name]
    case Endpoint(e) => EndpointBody(e)
    case SsEndpointComp(burst, attributes, bytes) => [SS_ENDPOINT_COMP, burst, attributes] + LeBytes(bytes, 2)
    case InterfaceAssoc(f, n, c, s, p, name) => [INTERFACE_ASSOC, f, n, c, s, p, name]
    case Custom(kind, data) => [kind] + data
  }

  /** A descriptor with its length in front, if that fits a byte. */
  function DescBytes(d: Desc): (r: Option<Bytes>)
    ensures r.Some? ==> |r.value| >= 2 && r.value[0] == |r.value|
  {
    var n := 1 + |Body(d)|;
    if n > 255 then None else Some([n] + Body(d))
  }

  function CompatBytes(c: Compat): Bytes { [c.firstInterface, 1] + c.id + c.subId + [0, 0, 0, 0, 0, 0] }

  function PropBytes(p: Prop): (r: Option<Bytes>) {
    var n := 14 + |p.name| + |p.data|;
    if |p.name| >= U16 || |p.data| >= U32 || n >= U32 then None
    else Some(LeBytes(n, 4) + LeBytes(p.dataType, 4) + LeBytes(|p.name|, 2) + p.name + LeBytes(|p.data|, 4) + p.data)
  }

  function CompatsBytes(cs: seq<Compat>): Bytes { if cs == [] then [] else CompatBytes(cs[0]) + CompatsBytes(cs[1..]) }

  function PropsBytes(ps: seq<Prop>): Option<Bytes> {
    if ps == [] then Some([])
    else
      var first, rest := PropBytes(ps[0]), PropsBytes(ps[1..]);
      if first.None? || rest.None? then None else Some(first.value + rest.value)
  }

  /** The extension part; `version` is the bcdVersion the running kernel expects. */
  function ExtBytes(e: OsExt, version: u16): Option<Bytes> {
    match e
    case ExtCompat(cs) =>
      if |cs| > 255 then None
      else Some(LeBytes(version, 2) + LeBytes(4, 2) + [|cs|, 0] + CompatsBytes(cs))
    case ExtProp(ps) =>
      if |ps| >= U16 || PropsBytes(ps).None? then None
      else Some(LeBytes(version, 2) + LeBytes(5, 2) + LeBytes(|ps|, 2) + PropsBytes(ps).value)
  }

  function OsBytes(o: OsDesc, version: u16): Option<Bytes> {
    var ext := ExtBytes(o.ext, version);
    if ext.None? || 5 + |ext.value| >= U32 then None
    else Some([o.interface_] + LeBytes(5 + |ext.value|, 4) + ext.value)
  }

  /** All descriptors of a list, one after the other. */
  function ListBytes(ds: seq<Desc>): Option<Bytes> {
    if ds == [] then Some([])
    else
      var first, rest := DescBytes(ds[0]), ListBytes(ds[1..]);
      if first.None? || rest.None? then None else Some(first.value + rest.value)
  }

  function OsListBytes(os: seq<OsDesc>, version: u16): Option<Bytes> {
    if os == [] then Some([])
    else
      var first, rest := OsBytes(os[0], version), OsListBytes(os[1..], version);
      if first.None? || rest.None? then None else Some(first.value + rest.value)
  }

  function FlagBits(x: Descs): nat {
    15 + (if x.flags.virtualAddr then 16 else 0) + (if x.eventfd.Some? then 32 else 0)
       + (if x.flags.allCtrlRecip then 64 else 0) + (if x.flags.config0Setup then 128 else 0)
  }

  /** Flags, eventfd and counts. */
  function Counts(x: Descs): Bytes {
    LeBytes(FlagBits(x), 4) + (if x.eventfd.Some? then LeBytes(x.eventfd.value, 4) else []) +
    LeBytes(|x.fs|, 4) + LeBytes(|x.hs|, 4) + LeBytes(|x.ss|, 4) + LeBytes(|x.os|, 4)
  }

  /** `Descs::to_bytes`. */
  function ToBytes(x: Descs, version: u16): Option<Bytes> {
    var fs, hs, ss, os := ListBytes(x.fs), ListBytes(x.hs), ListBytes(x.ss), OsListBytes(x.os, version);
    if |x.fs| >= U32 || |x.hs| >= U32 || |x.ss| >= U32 || |x.os| >= U32 then None
    else if fs.None? || hs.None? || ss.None? || os.None? then None
    else
      var rest := Counts(x) + fs.value + hs.value + ss.value + os.value;
      if 8 + |rest| >= U32 then None else Some(LeBytes(MAGIC_V2, 4) + LeBytes(8 + |rest|, 4) + rest)
  }

  // --- Reading back ------------------------------------------------------------------

  /** Cuts `n` descriptors off `bs`, following bLength; fails on a length below two or past the end. */
  function Walk(bs: Bytes, n: nat): Option<(seq<Bytes>, Bytes)>
    decreases n
  {
    if n == 0 then Some(([], bs))
    else if bs == [] || bs[0] < 2 || bs[0] > |bs| then None
    else
      var rest := Walk(bs[bs[0]..], n - 1);
      if rest.None? then None else Some(([bs[..bs[0]]] + rest.value.0, rest.value.1))
  }

  /** Cuts `n` OS descriptors off `bs`, following dwLength. */
  function WalkOs(bs: Bytes, n: nat): Option<(seq<Bytes>, Bytes)>
    decreases n
  {
    if n == 0 then Some(([], bs))
    else if |bs| < 5 then None
    else
      var len := LeValue(bs[1..5]);
      if len < 5 || len > |bs| then None
      else
        var rest := WalkOs(bs[len..], n - 1);
        if rest.None? then None else Some(([bs[..len]] + rest.value.0, rest.value.1))
  }

  function Encoded(ds: seq<Desc>): seq<Bytes>
    requires ListBytes(ds).Some?
  {
    if ds == [] then [] else [DescBytes(ds[0]).value] + Encoded(ds[1..])
  }

  function EncodedOs(os: seq<OsDesc>, version: u16): seq<Bytes>
    requires OsListBytes(os, version).Some?
  {
    if os == [] then [] else [OsBytes(os[0], version).value] + EncodedOs(os[1..], version)
  }

  // --- Properties --------------------------------------------------------------------

  predicate TooLong(d: Desc) { d.Custom? && |d.data| > 253 }

  /** Encoding a list fails exactly when it holds a custom descriptor with more than 253 bytes of data. */
  lemma {:induction false} RefusedExactly(ds: seq<Desc>)
    ensures ListBytes(ds).None? <==> exists i :: 0 <= i < |ds| && TooLong(ds[i])
  {
    hide LeBytes;
    if ds != [] {
      assert DescBytes(ds[0]).None? <==> TooLong(ds[0]);
      RefusedExactly(ds[1..]);
      if i :| 0 <= i < |ds| && TooLong(ds[i]) {
        if i > 0 { assert ds[1..][i - 1] == ds[i]; }
      }
    }
  }

  lemma {:induction false} ListAppend(xs: seq<Desc>, ys: seq<Desc>)
    requires ListBytes(xs).Some? && ListBytes(ys).Some?
    ensures ListBytes(xs + ys) == Some(ListBytes(xs).value + ListBytes(ys).value)
  {
    hide DescBytes;
    if xs == [] {
      assert xs + ys == ys && [] + ListBytes(ys).value == ListBytes(ys).value;
    } else {
      assert (xs + ys)[0] == xs[0] && (xs + ys)[1..] == xs[1..] + ys;
      ListAppend(xs[1..], ys);
      var first, rest := DescBytes(xs[0]).value, ListBytes(xs[1..]).value;
      assert first + (rest + ListBytes(ys).value) == (first + rest) + ListBytes(ys).value;
    }
  }

  /** Walking by bLength visits exactly the encoded descriptors and stops behind the last one. */
  lemma {:induction false} WalkReads(ds: seq<Desc>, rest: Bytes)
    requires ListBytes(ds).Some?
    ensures Walk(ListBytes(ds).value + rest, |ds|) == Some((Encoded(ds), rest))
  {
    hide DescBytes;
    if ds == [] {
      assert ListBytes(ds).value + rest == rest;
    } else {
      var first, more := DescBytes(ds[0]).value, ds[1..];
      var tail := ListBytes(more).value + rest;
      var bs := ListBytes(ds).value + rest;
      assert bs == first + tail;
      assert bs[0] == |first| && bs[..|first|] == first && bs[|first|..] == tail;
      WalkReads(more, rest);
    }
  }

  lemma LeField(n: nat, width: nat, before: Bytes, after: Bytes)
    requires n < Pow256(width)
    ensures var bs := before + LeBytes(n, width) + after;
            LeValue(bs[|before|..|before| + width]) == n
  {
    LeRoundTrip(n, width);
    var bs := before + LeBytes(n, width) + after;
    assert bs[|before|..|before| + width] == LeBytes(n, width);
  }

  lemma PowersOf256()
    ensures Pow256(4) == U32 && Pow256(2) == U16
  {
    assert Pow256(1) == 256 * Pow256(0);
    assert Pow256(2) == 256 * Pow256(1);
    assert Pow256(3) == 256 * Pow256(2);
    assert Pow256(4) == 256 * Pow256(3);
  }

  lemma OsLength(o: OsDesc, version: u16)
    requires OsBytes(o, version).Some?
    ensures var bs := OsBytes(o, version).value;
            |bs| >= 5 && bs[0] == o.interface_ && LeValue(bs[1..5]) == |bs|
  {
    hide LeBytes, LeValue, Pow256, ExtBytes;
    PowersOf256();
    var ext := ExtBytes(o.ext, version).value;
    LeField(5 + |ext|, 4, [o.interface_], ext);
  }

  /** Walking by dwLength visits exactly the encoded OS descriptors. */
  lemma {:induction false} WalkOsReads(os: seq<OsDesc>, version: u16, rest: Bytes)
    requires OsListBytes(os, version).Some?
    ensures WalkOs(OsListBytes(os, version).value + rest, |os|) == Some((EncodedOs(os, version), rest))
  {
    hide OsBytes, LeValue;
    if os == [] {
      assert OsListBytes(os, version).value + rest == rest;
    } else {
      var first, more := OsBytes(os[0], version).value, os[1..];
      OsLength(os[0], version);
      var tail := OsListBytes(more, version).value + rest;
      var bs := OsListBytes(os, version).value + rest;
      assert bs == first + tail;
      assert bs[1..5] == first[1..5] && bs[..|first|] == first && bs[|first|..] == tail;
      WalkOsReads(more, version, rest);
    }
  }

  lemma {:induction false} EncodedAppend(xs: seq<Desc>, ys: seq<Desc>)
    requires ListBytes(xs).Some? && ListBytes(ys).Some?
    ensures ListBytes(xs + ys).Some? && Encoded(xs + ys) == Encoded(xs) + Encoded(ys)
  {
    hide DescBytes;
    if xs == [] {
      assert xs + ys == ys;
    } else {
      assert (xs + ys)[0] == xs[0] && (xs + ys)[1..] == xs[1..] + ys;
      EncodedAppend(xs[1..], ys);
    }
  }

  // --- Fields by offset ------------------------------------------------------------------

  /** Two and four bytes of a little-endian field, by place. */
  function Two(bs: Bytes, at: nat): int
    requires at + 2 <= |bs|
  {
    var b0: int, b1: int := bs[at], bs[at + 1];
    b0 + 0x100 * b1
  }

  function Four(bs: Bytes, at: nat): int
    requires at + 4 <= |bs|
  {
    Two(bs, at) + 0x1_0000 * Two(bs, at + 2)
  }

  /** `bs` is the descriptor `d`, field by field (for interfaces and endpoints, tables 9-12 and 9-13 of USB 2.0). */
  predicate Describes(bs: Bytes, d: Desc) {
    match d
    case Interface(number, alternate, endpoints, class_, subClass, protocol, name) =>
      && |bs| == 9 && bs[0] == 9 && bs[1] == 0x04
      && bs[2] == number && bs[3] == alternate && bs[4] == endpoints
      && bs[5] == class_ && bs[6] == subClass && bs[7] == protocol && bs[8] == name
    case Endpoint(e) =>
      && |bs| == (if e.audio.Some? then 9 else 7) && bs[0] == |bs| && bs[1] == 0x05
      && bs[2] == e.address && bs[3] == e.attributes && Two(bs, 4) == e.maxPacketSize && bs[6] == e.interval
      && (e.audio.Some? ==> bs[7] == e.audio.value.refresh && bs[8] == e.audio.value.synchAddress)
    case SsEndpointComp(maxBurst, attributes, bytesPerInterval) =>
      && |bs| == 6 && bs[0] == 6 && bs[1] == 0x30
      && bs[2] == maxBurst && bs[3] == attributes && Two(bs, 4) == bytesPerInterval
    case InterfaceAssoc(first, count, class_, subClass, protocol, name) =>
      && |bs| == 8 && bs[0] == 8 && bs[1] == 0x0B
      && bs[2] == first && bs[3] == count
      && bs[4] == class_ && bs[5] == subClass && bs[6] == protocol && bs[7] == name
    case Custom(kind, data) => |bs| == 2 + |data| && bs[0] == |bs| && bs[1] == kind && bs[2..] == data
  }

  /** A compatible-ID entry of 24 bytes. */
  predicate DescribesCompat(bs: Bytes, c: Compat) {
    && |bs| == 24 && bs[0] == c.firstInterface && bs[1] == 1
    && bs[2..10] == c.id && bs[10..18] == c.subId && bs[18..24] == [0, 0, 0, 0, 0, 0]
  }

  /** A property section: its size, the data type, the name behind its length, and the data behind its length. */
  predicate DescribesProp(bs: Bytes, p: Prop) {
    var n := |p.name|;
    && |bs| == 14 + n + |p.data| && Four(bs, 0) == |bs| && Four(bs, 4) == p.dataType
    && Two(bs, 8) == n && bs[10..10 + n] == p.name
    && Four(bs, 10 + n) == |p.data| && bs[14 + n..] == p.data
  }

  /** Cuts `n` property sections off `bs`, following dwSize. */
  function WalkProps(bs: Bytes, n: nat): Option<(seq<Bytes>, Bytes)>
    decreases n
  {
    if n == 0 then Some(([], bs))
    else if |bs| < 14 || Four(bs, 0) < 14 || Four(bs, 0) > |bs| then None
    else
      var rest := WalkProps(bs[Four(bs, 0)..], n - 1);
      if rest.None? then None else Some(([bs[..Four(bs, 0)]] + rest.value.0, rest.value.1))
  }

  /** `bs` is the OS descriptor `o`: interface, length, version, index, count and the entries. */
  predicate DescribesOs(bs: Bytes, o: OsDesc, version: u16) {
    && |bs| >= 11 && bs[0] == o.interface_ && Four(bs, 1) == |bs| && Two(bs, 5) == version
    && match o.ext
       case ExtCompat(cs) =>
         && Two(bs, 7) == 4 && bs[9] == |cs| && bs[10] == 0 && |bs| == 11 + 24 * |cs|
         && forall i :: 0 <= i < |cs| ==> DescribesCompat(bs[11 + 24 * i..35 + 24 * i], cs[i])
       case ExtProp(ps) =>
         && Two(bs, 7) == 5 && Two(bs, 9) == |ps|
         && var walked := WalkProps(bs[11..], |ps|);
            && walked.Some? && |walked.value.0| == |ps| && walked.value.1 == []
            && forall i :: 0 <= i < |ps| ==> DescribesProp(walked.value.0[i], ps[i])
  }

  lemma TwoAt(before: Bytes, n: u16, after: Bytes)
    ensures Two(before + LeBytes(n, 2) + after, |before|) == n
  {
    hide LeBytes;
    TwoBytes(n);
    var bs := before + LeBytes(n, 2) + after;
    assert bs[|before|] == n % 256 && bs[|before| + 1] == n / 256;
  }

  lemma FourAt(before: Bytes, n: u32, after: Bytes)
    ensures Four(before + LeBytes(n, 4) + after, |before|) == n
  {
    hide LeBytes;
    var bs := before + LeBytes(n, 4) + after;
    FourBytes(n);
    assert bs[|before|] == LeBytes(n, 4)[0] && bs[|before| + 1] == LeBytes(n, 4)[1];
    assert bs[|before| + 2] == LeBytes(n, 4)[2] && bs[|before| + 3] == LeBytes(n, 4)[3];
  }

  lemma FourBytes(n: u32)
    ensures Four(LeBytes(n, 4), 0) == n
  {
    var low, high := n % 0x1_0000, n / 0x1_0000;
    assert LeBytes(n, 4) == [n % 256] + ([n / 256 % 256] + LeBytes(n / 256 / 256, 2));
    assert n / 256 / 256 == high;
    TwoBytes(high);
  }

  /** Every encoded descriptor has its fields where the tables put them. */
  lemma DescLayout(d: Desc)
    requires DescBytes(d).Some?
    ensures Describes(DescBytes(d).value, d)
  {
    hide LeBytes, Two;
    var bs := DescBytes(d).value;
    match d
    case Endpoint(e) =>
      var tail: Bytes := [e.interval] + if e.audio.Some? then [e.audio.value.refresh, e.audio.value.synchAddress] else [];
      var front := [|bs|, 0x05, e.address, e.attributes];
      assert bs == front + LeBytes(e.maxPacketSize, 2) + tail;
      TwoAt(front, e.maxPacketSize, tail);
    case SsEndpointComp(burst, attributes, bytes) =>
      var front := [6, 0x30, burst, attributes];
      assert bs == front + LeBytes(bytes, 2) + [];
      TwoAt(front, bytes, []);
    case _ =>
  }

  lemma {:induction false} EncodedDescribes(ds: seq<Desc>)
    requires ListBytes(ds).Some?
    ensures |Encoded(ds)| == |ds| && forall i :: 0 <= i < |ds| ==> Describes(Encoded(ds)[i], ds[i])
  {
    hide DescBytes, Describes;
    if ds != [] {
      DescLayout(ds[0]);
      EncodedDescribes(ds[1..]);
    }
  }

  lemma {:induction false} CompatsLayout(cs: seq<Compat>)
    ensures |CompatsBytes(cs)| == 24 * |cs|
    ensures forall i :: 0 <= i < |cs| ==> DescribesCompat(CompatsBytes(cs)[24 * i..24 * i + 24], cs[i])
  {
    if cs != [] {
      var first, rest := CompatBytes(cs[0]), CompatsBytes(cs[1..]);
      var all := first + rest;
      CompatsLayout(cs[1..]);
      forall i | 0 <= i < |cs| ensures DescribesCompat(all[24 * i..24 * i + 24], cs[i]) {
        if i == 0 {
          assert all[..24] == first;
        } else {
          assert all[24 * i..24 * i + 24] == rest[24 * (i - 1)..24 * (i - 1) + 24];
        }
      }
    }
  }

  lemma PropLayout(p: Prop)
    requires PropBytes(p).Some?
    ensures DescribesProp(PropBytes(p).value, p)
  {
    hide LeBytes, Four, Two;
    var n := 14 + |p.name| + |p.data|;
    var size, kind, nameLen, dataLen := LeBytes(n, 4), LeBytes(p.dataType, 4), LeBytes(|p.name|, 2), LeBytes(|p.data|, 4);
    var bs := PropBytes(p).value;
    var r3 := dataLen + p.data;
    var r2 := p.name + r3;
    var r1 := nameLen + r2;
    assert bs == size + kind + nameLen + r2;
    assert bs == size + kind + r1;
    FourAt([], n, kind + r1);
    assert [] + size + (kind + r1) == bs;
    FourAt(size, p.dataType, r1);
    TwoAt(size + kind, |p.name|, r2);
    var before := size + kind + nameLen + p.name;
    assert before + dataLen + p.data == bs;
    FourAt(before, |p.data|, p.data);
  }

  function EncodedProps(ps: seq<Prop>): seq<Bytes>
    requires PropsBytes(ps).Some?
  {
    if ps == [] then [] else [PropBytes(ps[0]).value] + EncodedProps(ps[1..])
  }

  lemma {:induction false} PropsLayout(ps: seq<Prop>)
    requires PropsBytes(ps).Some?
    ensures WalkProps(PropsBytes(ps).value, |ps|) == Some((EncodedProps(ps), []))
    ensures |EncodedProps(ps)| == |ps| && forall i :: 0 <= i < |ps| ==> DescribesProp(EncodedProps(ps)[i], ps[i])
  {
    hide PropBytes;
    if ps != [] {
      var first, rest := PropBytes(ps[0]).value, PropsBytes(ps[1..]).value;
      PropLayout(ps[0]);
      PropsLayout(ps[1..]);
      var bs := first + rest;
      assert Four(bs, 0) == Four(first, 0) == |first|;
      assert bs[..|first|] == first && bs[|first|..] == rest;
    }
  }

  lemma OsLayout(o: OsDesc, version: u16)
    requires OsBytes(o, version).Some?
    ensures DescribesOs(OsBytes(o, version).value, o, version)
  {
    hide LeBytes, Four, Two, CompatsBytes, PropsBytes, WalkProps, DescribesCompat, DescribesProp;
    var bs := OsBytes(o, version).value;
    var ext := ExtBytes(o.ext, version).value;
    var size, ver := LeBytes(|bs|, 4), LeBytes(version, 2);
    FourAt([o.interface_], |bs|, ext);
    match o.ext
    case ExtCompat(cs) =>
      var tail := [|cs|, 0] + CompatsBytes(cs);
      assert bs == [o.interface_] + size + ver + (LeBytes(4, 2) + tail);
      TwoAt([o.interface_] + size, version, LeBytes(4, 2) + tail);
      assert bs == ([o.interface_] + size + ver) + LeBytes(4, 2) + tail;
      TwoAt([o.interface_] + size + ver, 4, tail);
      CompatsLayout(cs);
      assert bs[11..] == CompatsBytes(cs);
      forall i | 0 <= i < |cs| ensures DescribesCompat(bs[11 + 24 * i..35 + 24 * i], cs[i]) {
        assert bs[11 + 24 * i..35 + 24 * i] == CompatsBytes(cs)[24 * i..24 * i + 24];
      }
    case ExtProp(ps) =>
      var count, tail := LeBytes(|ps|, 2), PropsBytes(ps).value;
      assert bs == [o.interface_] + size + ver + (LeBytes(5, 2) + count + tail);
      TwoAt([o.interface_] + size, version, LeBytes(5, 2) + count + tail);
      assert bs == ([o.interface_] + size + ver) + LeBytes(5, 2) + (count + tail);
      TwoAt([o.interface_] + size + ver, 5, count + tail);
      assert bs == ([o.interface_] + size + ver + LeBytes(5, 2)) + count + tail;
      TwoAt([o.interface_] + size + ver + LeBytes(5, 2), |ps|, tail);
      PropsLayout(ps);
      assert bs[11..] == tail;
  }

  lemma {:induction false} EncodedOsDescribes(os: seq<OsDesc>, version: u16)
    requires OsListBytes(os, version).Some?
    ensures |EncodedOs(os, version)| == |os|
    ensures forall i :: 0 <= i < |os| ==> DescribesOs(EncodedOs(os, version)[i], os[i], version)
  {
    hide OsBytes, DescribesOs;
    if os != [] {
      OsLayout(os[0], version);
      EncodedOsDescribes(os[1..], version);
    }
  }

  /** Size of everything before the first descriptor. */
  function HeaderSize(x: Descs): nat { if x.eventfd.Some? then 32 else 28 }

  lemma CountsSize(x: Descs)
    ensures |Counts(x)| == HeaderSize(x) - 8
  {
    hide LeBytes;
  }

  /**
   Main result.  A successful encoding carries the magic and its own size; walking bLength from the end of the
   header visits the full-speed, high-speed and super-speed descriptors in order and stops at the OS part,
   which the walk by dwLength then reads to the very end.  Every piece the walks yield has the fields of its
   descriptor at the offsets of the tables.
   */
  lemma EncodingIsSelfDelimiting(x: Descs, version: u16)
    requires ToBytes(x, version).Some?
    ensures var bs := ToBytes(x, version).value;
            && |bs| >= HeaderSize(x)
            && LeValue(bs[0..4]) == 3
            && LeValue(bs[4..8]) == |bs|
            && ListBytes(x.fs).Some? && ListBytes(x.hs).Some? && ListBytes(x.ss).Some? && OsListBytes(x.os, version).Some?
            && var walked := Walk(bs[HeaderSize(x)..], |x.fs| + |x.hs| + |x.ss|);
               && walked.Some?
               && walked.value.0 == Encoded(x.fs) + Encoded(x.hs) + Encoded(x.ss)
               && WalkOs(walked.value.1, |x.os|) == Some((EncodedOs(x.os, version), []))
    ensures var bs := ToBytes(x, version).value;
            var walked := Walk(bs[HeaderSize(x)..], |x.fs| + |x.hs| + |x.ss|).value;
            var all := x.fs + x.hs + x.ss;
            var os := WalkOs(walked.1, |x.os|).value.0;
            && |walked.0| == |all| && (forall i :: 0 <= i < |all| ==> Describes(walked.0[i], all[i]))
            && |os| == |x.os| && (forall i :: 0 <= i < |os| ==> DescribesOs(os[i], x.os[i], version))
  {
    hide LeBytes, LeValue, Pow256, ListBytes, OsListBytes, Counts, Encoded, EncodedOs, Walk, WalkOs, Describes, DescribesOs;
    CountsSize(x);
    var bs := ToBytes(x, version).value;
    var fs, hs, ss := ListBytes(x.fs).value, ListBytes(x.hs).value, ListBytes(x.ss).value;
    var os := OsListBytes(x.os, version).value;
    var rest := Counts(x) + fs + hs + ss + os;
    assert bs == LeBytes(MAGIC_V2, 4) + (LeBytes(8 + |rest|, 4) + rest);
    assert bs[0..] == bs;
    FieldAt(bs, 0, MAGIC_V2, LeBytes(8 + |rest|, 4) + rest);
    FieldAt(bs, 4, 8 + |rest|, rest);
    CountsLast(x, version);
    assert bs[HeaderSize(x)..] == bs[8..][|Counts(x)|..] == fs + hs + ss + os;
    ListAppend(x.fs, x.hs);
    ListAppend(x.fs + x.hs, x.ss);
    EncodedAppend(x.fs, x.hs);
    EncodedAppend(x.fs + x.hs, x.ss);
    EncodedDescribes(x.fs + x.hs + x.ss);
    EncodedOsDescribes(x.os, version);
    WalkReads(x.fs + x.hs + x.ss, os);
    WalkOsReads(x.os, version, []);
    assert os + [] == os;
  }

  /** The flags, the eventfd and the four counts of the header. */
  lemma CountsReadBack(x: Descs, version: u16)
    requires ToBytes(x, version).Some?
    ensures var bs, at := ToBytes(x, version).value, HeaderSize(x) - 16;
            && |bs| >= at + 16
            && FlagsSay(LeValue(bs[8..12]), x)
            && LeValue(bs[at..at + 4]) == |x.fs| && LeValue(bs[at + 4..at + 8]) == |x.hs|
            && LeValue(bs[at + 8..at + 12]) == |x.ss| && LeValue(bs[at + 12..at + 16]) == |x.os|
            && (x.eventfd.Some? ==> LeValue(bs[12..16]) == x.eventfd.value)
  {
    hide LeBytes, LeValue, Pow256, ListBytes, OsListBytes, FlagBits, ToBytes, FlagsSay;
    var bs := ToBytes(x, version).value;
    CountsLast(x, version);
    var tail := ListBytes(x.fs).value + ListBytes(x.hs).value + ListBytes(x.ss).value + OsListBytes(x.os, version).value;
    var flags := LeBytes(FlagBits(x), 4);
    var fd: Bytes := if x.eventfd.Some? then LeBytes(x.eventfd.value, 4) else [];
    var fs, hs, ss, os := LeBytes(|x.fs|, 4), LeBytes(|x.hs|, 4), LeBytes(|x.ss|, 4), LeBytes(|x.os|, 4);
    // Fields in front are moved to the right one by one.
    assert Counts(x) == flags + fd + fs + hs + ss + os;
    var r4 := os + tail;
    assert bs[8..] == (flags + fd + fs + hs + ss) + r4;
    var r3 := ss + r4;
    assert bs[8..] == (flags + fd + fs + hs) + r3;
    var r2 := hs + r3;
    assert bs[8..] == (flags + fd + fs) + r2;
    var r1 := fs + r2;
    assert bs[8..] == (flags + fd) + r1;
    assert bs[8..] == flags + (fd + r1);
    FlagsFit(x);
    FieldAt(bs, 8, FlagBits(x), fd + r1);
    if x.eventfd.Some? { FieldAt(bs, 12, x.eventfd.value, r1); }
    var at := HeaderSize(x) - 16;
    assert bs[at..] == r1;
    FieldAt(bs, at, |x.fs|, r2);
    FieldAt(bs, at + 4, |x.hs|, r3);
    FieldAt(bs, at + 8, |x.ss|, r4);
    FieldAt(bs, at + 12, |x.os|, tail);
  }

  /** The four lists are always announced (bits 0 to 3); bits 4 to 7 are the virtual address, eventfd, recipient and setup flags. */
  predicate FlagsSay(flags: nat, x: Descs) {
    && flags < 256 && flags % 16 == 15
    && (flags / 16 % 2 == 1 <==> x.flags.virtualAddr)
    && (flags / 32 % 2 == 1 <==> x.eventfd.Some?)
    && (flags / 64 % 2 == 1 <==> x.flags.allCtrlRecip)
    && (flags / 128 % 2 == 1 <==> x.flags.config0Setup)
  }

  lemma FlagsFit(x: Descs)
    ensures FlagBits(x) < 256 && FlagsSay(FlagBits(x), x)
  {
  }

  /** What follows the length field: the counts, then everything else. */
  lemma CountsLast(x: Descs, version: u16)
    requires ToBytes(x, version).Some?
    ensures var bs := ToBytes(x, version).value;
            && |bs| >= 8 && |x.fs| < U32 && |x.hs| < U32 && |x.ss| < U32 && |x.os| < U32
            && ListBytes(x.fs).Some? && ListBytes(x.hs).Some? && ListBytes(x.ss).Some? && OsListBytes(x.os, version).Some?
            && bs[8..] == Counts(x) + (ListBytes(x.fs).value + ListBytes(x.hs).value + ListBytes(x.ss).value
                                       + OsListBytes(x.os, version).value)
  {
    hide LeBytes, ListBytes, OsListBytes, Counts;
    var fs, hs, ss := ListBytes(x.fs).value, ListBytes(x.hs).value, ListBytes(x.ss).value;
    var os := OsListBytes(x.os, version).value;
    assert Counts(x) + fs + hs == Counts(x) + (fs + hs);
    assert Counts(x) + (fs + hs) + ss == Counts(x) + (fs + hs + ss);
    assert Counts(x) + (fs + hs + ss) + os == Counts(x) + (fs + hs + ss + os);
  }

  lemma FieldAt(bs: Bytes, at: nat, n: nat, after: Bytes)
    requires at <= |bs| && n < U32 && bs[at..] == LeBytes(n, 4) + after
    ensures |bs| >= at + 4 && LeValue(bs[at..at + 4]) == n && bs[at + 4..] == after
  {
    hide LeBytes, LeValue, Pow256;
    PowersOf256();
    LeRoundTrip(n, 4);
    assert bs[at..at + 4] == bs[at..][..4] == LeBytes(n, 4);
    assert bs[at + 4..] == bs[at..][4..] == after;
  }

  // --- Endpoint descriptors -------------------------------------------------------------

  /** `EndpointDesc::parse`. */
  function ParseEndpoint(bs: Bytes): Option<EndpointDesc> {
    if bs == [] || (bs[0] != ENDPOINT_SIZE && bs[0] != AUDIO_ENDPOINT_SIZE) then None
    else if |bs| < 2 || bs[1] != ENDPOINT then None
    else if |bs| < ENDPOINT_SIZE || (bs[0] == AUDIO_ENDPOINT_SIZE && |bs| < AUDIO_ENDPOINT_SIZE) then None
    else
      var low: int, high: int := bs[4], bs[5];
      Some(EndpointDesc(bs[2], bs[3], low + 256 * high, bs[6],
                        if bs[0] == AUDIO_ENDPOINT_SIZE then Some(Audio(bs[7], bs[8])) else None))
  }

  lemma TwoBytes(n: u16)
    ensures LeBytes(n, 2) == [n % 256, n / 256]
  {
    assert LeBytes(n / 256, 1) == [n / 256 % 256] + LeBytes(n / 256 / 256, 0);
  }

  /** Parsing inverts writing, whatever follows the descriptor. */
  lemma EndpointRoundTrip(e: EndpointDesc, trailing: Bytes)
    ensures DescBytes(Endpoint(e)).Some?
    ensures ParseEndpoint(DescBytes(Endpoint(e)).value + trailing) == Some(e)
  {
    hide LeBytes;
    TwoBytes(e.maxPacketSize);
    var b := DescBytes(Endpoint(e)).value;
    assert b[4..6] == LeBytes(e.maxPacketSize, 2);
    assert b[4] == e.maxPacketSize % 256 && b[5] == e.maxPacketSize / 256;
  }

  /** Conversely, only encodings parse: an accepted byte string starts with the encoding of its result. */
  lemma EndpointParseSound(bs: Bytes)
    requires ParseEndpoint(bs).Some?
    ensures DescBytes(Endpoint(ParseEndpoint(bs).value)).Some?
    ensures DescBytes(Endpoint(ParseEndpoint(bs).value)).value <= bs
  {
    hide LeBytes;
    var e := ParseEndpoint(bs).value;
    TwoBytes(e.maxPacketSize);
    assert e.maxPacketSize % 256 == bs[4] && e.maxPacketSize / 256 == bs[5];
    var b := DescBytes(Endpoint(e)).value;
    assert b[4..6] == LeBytes(e.maxPacketSize, 2);
    assert forall i :: 0 <= i < |b| ==> b[i] == bs[i];
    assert bs[..|b|] == b;
  }

  /** `EndpointDesc::parse` as written: a cursor that is advanced field by field and fails at the end of the data. */
  method ParseWithCursor(bs: Bytes) returns (r: Option<EndpointDesc>)
    ensures r == ParseEndpoint(bs)
  {
    var data := bs;
    if data == [] { return None; }
    var size := data[0];
    data := data[1..];
    if size != ENDPOINT_SIZE && size != AUDIO_ENDPOINT_SIZE { return None; }
    if data == [] || data[0] != ENDPOINT { return None; }
    data := data[1..];
    if |data| < 2 { return None; }
    var address, attributes := data[0], data[1];
    data := data[2..];
    if |data| < 2 { return None; }
    var low: int, high: int := data[0], data[1];
    data := data[2..];
    if data == [] { return None; }
    var interval := data[0];
    data := data[1..];
    var audio := None;
    if size == AUDIO_ENDPOINT_SIZE {
      if |data| < 2 { return None; }
      audio := Some(Audio(data[0], data[1]));
    }
    r := Some(EndpointDesc(address, attributes, low + 256 * high, interval, audio));
  }

  // --- The builders ---------------------------------------------------------------------

  /** The `write` functions: fields are appended one after the other. */
  method Write(d: Desc, before: Bytes) returns (data: Bytes)
    ensures data == before + Body(d)
  {
    hide LeBytes;
    data := before;
    match d
    case Interface(n, a, e, c, s, p, name) =>
      data := data + [INTERFACE];
      data := data + [n] + [a] + [e] + [c] + [s] + [p] + [name];
    case Endpoint(e) =>
      data := data + [ENDPOINT];
      data := data + [e.address] + [e.attributes] + LeBytes(e.maxPacketSize, 2) + [e.interval];
      if e.audio.Some? {
        data := data + [e.audio.value.refresh] + [e.audio.value.synchAddress];
      }
    case SsEndpointComp(burst, attributes, bytes) =>
      data := data + [SS_ENDPOINT_COMP];
      data := data + [burst] + [attributes] + LeBytes(bytes, 2);
    case InterfaceAssoc(f, n, c, s, p, name) =>
      data := data + [INTERFACE_ASSOC];
      data := data + [f] + [n] + [c] + [s] + [p] + [name];
    case Custom(kind, rest) =>
      data := data + [kind];
      data := data + rest;
  }

  /** `Desc::to_bytes`: a placeholder length is patched once the descriptor is complete. */
  method BuildDesc(d: Desc) returns (r: Option<Bytes>)
    ensures r == DescBytes(d)
  {
    hide Body;
    var data := Write(d, [0]);
    if |data| > 255 { return None; }
    data := data[0 := |data|];
    assert data == [|data|] + Body(d);
    r := Some(data);
  }

  method BuildList(ds: seq<Desc>, before: Bytes) returns (r: Option<Bytes>)
    ensures r == if ListBytes(ds).None? then None else Some(before + ListBytes(ds).value)
  {
    hide DescBytes;
    var data := before;
    assert ds[0..] == ds;
    for i := 0 to |ds|
      invariant ListBytes(ds).None? == ListBytes(ds[i..]).None?
      invariant ListBytes(ds).Some? ==> before + ListBytes(ds).value == data + ListBytes(ds[i..]).value
    {
      assert ds[i..][1..] == ds[i + 1..];
      var one := BuildDesc(ds[i]);
      if one.None? { return None; }
      ghost var rest := ListBytes(ds[i + 1..]);
      if rest.Some? { assert data + (one.value + rest.value) == data + one.value + rest.value; }
      data := data + one.value;
    }
    assert ds[|ds|..] == [] && data + [] == data;
    r := Some(data);
  }

  /** `OsExtProp::to_bytes`; its length assertion holds. */
  method BuildProp(p: Prop) returns (r: Option<Bytes>)
    ensures r == PropBytes(p)
  {
    hide LeBytes;
    var data := LeBytes(0, 4) + LeBytes(p.dataType, 4);
    if |p.name| >= U16 { return None; }
    data := data + LeBytes(|p.name|, 2) + p.name;
    if |p.data| >= U32 { return None; }
    data := data + LeBytes(|p.data|, 4) + p.data;
    if |data| >= U32 { return None; }
    assert |data| == 14 + |p.name| + |p.data|;
    data := LeBytes(|data|, 4) + data[4..];
    r := Some(data);
    assert data == PropBytes(p).value;
  }

  method BuildCompats(cs: seq<Compat>, before: Bytes) returns (data: Bytes)
    ensures data == before + CompatsBytes(cs)
  {
    hide CompatBytes;
    data := before;
    assert cs[0..] == cs;
    for i := 0 to |cs|
      invariant data + CompatsBytes(cs[i..]) == before + CompatsBytes(cs)
    {
      assert cs[i..][1..] == cs[i + 1..];
      assert data + (CompatBytes(cs[i]) + CompatsBytes(cs[i + 1..])) == data + CompatBytes(cs[i]) + CompatsBytes(cs[i + 1..]);
      data := data + CompatBytes(cs[i]);
    }
    assert cs[|cs|..] == [] && data + [] == data;
  }

  method BuildProps(ps: seq<Prop>, before: Bytes) returns (r: Option<Bytes>)
    ensures r == if PropsBytes(ps).None? then None else Some(before + PropsBytes(ps).value)
  {
    hide PropBytes;
    var data := before;
    assert ps[0..] == ps;
    for i := 0 to |ps|
      invariant PropsBytes(ps).None? == PropsBytes(ps[i..]).None?
      invariant PropsBytes(ps).Some? ==> before + PropsBytes(ps).value == data + PropsBytes(ps[i..]).value
    {
      assert ps[i..][1..] == ps[i + 1..];
      var one := BuildProp(ps[i]);
      if one.None? { return None; }
      ghost var rest := PropsBytes(ps[i + 1..]);
      if rest.Some? { assert data + (one.value + rest.value) == data + one.value + rest.value; }
      data := data + one.value;
    }
    assert ps[|ps|..] == [] && data + [] == data;
    r := Some(data);
  }

  /** `OsDescExt::write`. */
  method BuildExt(e: OsExt, version: u16, before: Bytes) returns (r: Option<Bytes>)
    ensures r == if ExtBytes(e, version).None? then None else Some(before + ExtBytes(e, version).value)
  {
    hide LeBytes, PropsBytes, CompatsBytes;
    var data := before + LeBytes(version, 2);
    match e
    case ExtCompat(cs) =>
      data := data + LeBytes(4, 2);
      if |cs| > 255 { return None; }
      data := data + [|cs|] + [0];
      data := BuildCompats(cs, data);
      assert data == before + ExtBytes(e, version).value;
      r := Some(data);
    case ExtProp(ps) =>
      data := data + LeBytes(5, 2);
      if |ps| >= U16 { return None; }
      data := data + LeBytes(|ps|, 2);
      r := BuildProps(ps, data);
      if r.Some? { assert r.value == before + ExtBytes(e, version).value; }
  }

  /** `OsDesc::to_bytes`: the length is patched into bytes 1 to 4. */
  method BuildOs(o: OsDesc, version: u16) returns (r: Option<Bytes>)
    ensures r == OsBytes(o, version)
  {
    hide LeBytes, ExtBytes;
    r := BuildExt(o.ext, version, [o.interface_] + LeBytes(0, 4));
    if r.None? { return; }
    var data := r.value;
    if |data| >= U32 { return None; }
    data := data[..1] + LeBytes(|data|, 4) + data[5..];
    assert data == OsBytes(o, version).value;
    r := Some(data);
  }

  method BuildOsList(os: seq<OsDesc>, version: u16, before: Bytes) returns (r: Option<Bytes>)
    ensures r == if OsListBytes(os, version).None? then None else Some(before + OsListBytes(os, version).value)
  {
    hide OsBytes;
    var data := before;
    assert os[0..] == os;
    for i := 0 to |os|
      invariant OsListBytes(os, version).None? == OsListBytes(os[i..], version).None?
      invariant OsListBytes(os, version).Some? ==>
                  before + OsListBytes(os, version).value == data + OsListBytes(os[i..], version).value
    {
      assert os[i..][1..] == os[i + 1..];
      var one := BuildOs(os[i], version);
      if one.None? { return None; }
      ghost var rest := OsListBytes(os[i + 1..], version);
      if rest.Some? { assert data + (one.value + rest.value) == data + one.value + rest.value; }
      data := data + one.value;
    }
    assert os[|os|..] == [] && data + [] == data;
    r := Some(data);
  }

  /** `Descs::to_bytes`, with the total length patched into bytes 4 to 7 at the end. */
  method Build(x: Descs, version: u16) returns (r: Option<Bytes>)
    ensures r == ToBytes(x, version)
  {
    hide LeBytes, ListBytes, OsListBytes, FlagBits;
    var data := LeBytes(MAGIC_V2, 4) + LeBytes(0, 4) + LeBytes(FlagBits(x), 4);
    if x.eventfd.Some? { data := data + LeBytes(x.eventfd.value, 4); }
    if |x.fs| >= U32 { return None; }
    data := data + LeBytes(|x.fs|, 4);
    if |x.hs| >= U32 { return None; }
    data := data + LeBytes(|x.hs|, 4);
    if |x.ss| >= U32 { return None; }
    data := data + LeBytes(|x.ss|, 4);
    if |x.os| >= U32 { return None; }
    data := data + LeBytes(|x.os|, 4);
    assert data == LeBytes(MAGIC_V2, 4) + LeBytes(0, 4) + Counts(x);
    r := BuildList(x.fs, data);
    if r.None? { return; }
    r := BuildList(x.hs, r.value);
    if r.None? { return; }
    r := BuildList(x.ss, r.value);
    if r.None? { return; }
    r := BuildOsList(x.os, version, r.value);
    if r.None? { return; }
    data := r.value;
    ghost var rest := Counts(x) + ListBytes(x.fs).value + ListBytes(x.hs).value + ListBytes(x.ss).value
                      + OsListBytes(x.os, version).value;
    assert data == LeBytes(MAGIC_V2, 4) + LeBytes(0, 4) + rest;
    if |data| >= U32 { return None; }
    data := data[..4] + LeBytes(|data|, 4) + data[8..];
    assert data == LeBytes(MAGIC_V2, 4) + LeBytes(8 + |rest|, 4) + rest;
    r := Some(data);
  }
}
