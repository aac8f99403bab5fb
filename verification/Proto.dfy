/** The fastboot wire vocabulary shared by the USB and TCP transports. */
module Proto {
  import opened ByteSeq

  datatype DownloadKind = Plain | Fastboot

  datatype FetchTarget = Sysinfo | SysinfoJson

  datatype Command =
    | WOpen
    | GetVar(arg: Bytes)
    | Fetch(target: FetchTarget)
    | FetchUnknownPart
    | Download(len: nat, kind: DownloadKind)
    | Flash
    | Close
    | Unsupported

  const SIZE_WIDTH: nat := 8

  const COLON: byte := 0x3A
  const PERCENT: byte := 0x25
  const DOWNLOAD: Bytes := [0x64, 0x6F, 0x77, 0x6E, 0x6C, 0x6F, 0x61, 0x64]
  const DONWLOAD: Bytes := [0x64, 0x6F, 0x6E, 0x77, 0x6C, 0x6F, 0x61, 0x64]
  const WOPEN: Bytes := [0x57, 0x4F, 0x70, 0x65, 0x6E]
  const GETVAR: Bytes := [0x67, 0x65, 0x74, 0x76, 0x61, 0x72]
  const FETCH: Bytes := [0x66, 0x65, 0x74, 0x63, 0x68]
  const FLASH: Bytes := [0x66, 0x6C, 0x61, 0x73, 0x68]
  const CLOSE: Bytes := [0x43, 0x6C, 0x6F, 0x73, 0x65]
  const SYSINFO: Bytes := [0x73, 0x79, 0x73, 0x69, 0x6E, 0x66, 0x6F]
  const DOT_JSON: Bytes := [0x2E, 0x6A, 0x73, 0x6F, 0x6E]
  const DATA: Bytes := [0x44, 0x41, 0x54, 0x41]

  predicate IsPadding(b: byte) {
    b == 0 || b == 0x20 || b == 0x09 || b == 0x0A || b == 0x0C || b == 0x0D
  }

  /** Length of the leading run of padding. */
  function SkipPadding(bs: Bytes): (n: nat)
    ensures n <= |bs|
    ensures forall i :: 0 <= i < n ==> IsPadding(bs[i])
    ensures n < |bs| ==> !IsPadding(bs[n])
  {
    if bs == [] || !IsPadding(bs[0]) then 0 else 1 + SkipPadding(bs[1..])
  }

  /** Length of the leading run without padding. */
  function TokenLen(bs: Bytes): (n: nat)
    ensures n <= |bs|
    ensures forall i :: 0 <= i < n ==> !IsPadding(bs[i])
    ensures n < |bs| ==> IsPadding(bs[n])
  {
    if bs == [] || IsPadding(bs[0]) then 0 else 1 + TokenLen(bs[1..])
  }

  /** Index of the first `b`, or the length when there is none. */
  function Find(bs: Bytes, b: byte): (n: nat)
    ensures n <= |bs|
    ensures forall i :: 0 <= i < n ==> bs[i] != b
    ensures n < |bs| ==> bs[n] == b
  {
    if bs == [] || bs[0] == b then 0 else 1 + Find(bs[1..], b)
  }

  function HexDigit(b: byte): (d: Option<nat>)
    ensures d.Some? ==> d.value < 16
  {
    if 0x30 <= b <= 0x39 then Some(b - 0x30)
    else if 0x41 <= b <= 0x46 then Some(b - 0x41 + 10)
    else if 0x61 <= b <= 0x66 then Some(b - 0x61 + 10)
    else None
  }

  function Pow16(n: nat): (p: nat)
    ensures p > 0
  {
    if n == 0 then 1 else 16 * Pow16(n - 1)
  }

  /** Digits only. */
  function ParseDigits(bs: Bytes): (v: Option<nat>)
    ensures v.Some? ==> v.value < Pow16(|bs|)
  {
    if bs == [] then Some(0)
    else
      var hi := ParseDigits(bs[..|bs| - 1]);
      var lo := HexDigit(bs[|bs| - 1]);
      if hi.None? || lo.None? then None else Some(16 * hi.value + lo.value)
  }

  /** `usize::from_str_radix(_, 16)`: at least one digit, a leading plus sign is accepted. */
  function ParseHex(bs: Bytes): Option<nat> {
    var digits := if bs != [] && bs[0] == 0x2B then bs[1..] else bs;
    if digits == [] then None else ParseDigits(digits)
  }

  predicate IsContinuation(b: byte) { 0x80 <= b <= 0xBF }

  /** Well-formed UTF-8 (section 4 of RFC 3629). */
  predicate ValidUtf8(bs: Bytes) {
    if bs == [] then true
    else if bs[0] < 0x80 then ValidUtf8(bs[1..])
    else if 0xC2 <= bs[0] <= 0xDF then |bs| >= 2 && IsContinuation(bs[1]) && ValidUtf8(bs[2..])
    else if 0xE0 <= bs[0] <= 0xEF then
      && |bs| >= 3 && IsContinuation(bs[1]) && IsContinuation(bs[2])
      && (bs[0] == 0xE0 ==> bs[1] >= 0xA0) && (bs[0] == 0xED ==> bs[1] <= 0x9F)
      && ValidUtf8(bs[3..])
    else if 0xF0 <= bs[0] <= 0xF4 then
      && |bs| >= 4 && IsContinuation(bs[1]) && IsContinuation(bs[2]) && IsContinuation(bs[3])
      && (bs[0] == 0xF0 ==> bs[1] >= 0x90) && (bs[0] == 0xF4 ==> bs[1] <= 0x8F)
      && ValidUtf8(bs[4..])
    else false
  }

  /** The size argument of a download and how many argument bytes it takes. */
  function ParseDownload(name: Bytes, args: Bytes): Option<(Command, nat)> {
    var percent := name == DOWNLOAD && args != [] && args[0] == PERCENT;
    var start := if percent then 1 else 0;
    if |args| < start + SIZE_WIDTH then None
    else
      var len := ParseHex(args[start..start + SIZE_WIDTH]);
      if len.None? then None
      else Some((Download(len.value, if percent then Fastboot else Plain), start + SIZE_WIDTH))
  }

  /** A command with a colon: name, arguments, and how many argument bytes it takes. */
  function ParseNamed(name: Bytes, args: Bytes): Option<(Command, nat)> {
    var n := TokenLen(args);
    if name == DOWNLOAD || name == DONWLOAD then ParseDownload(name, args)
    else if name == WOPEN then Some((WOpen, n))
    else if name == GETVAR then
      Some((if n > 0 && ValidUtf8(args[..n]) then GetVar(args[..n]) else Unsupported, n))
    else if name == FETCH then
      if !ValidUtf8(args[..n]) then None
      else
        var target := args[..Find(args[..n], COLON)];
        Some((if target == SYSINFO then Fetch(Sysinfo)
              else if target == SYSINFO + DOT_JSON then Fetch(SysinfoJson)
              else FetchUnknownPart, n))
    else if name == FLASH then Some((Flash, n))
    else Some((Unsupported, n))
  }

  /** `parse_command`: the command at the front of `data` and the bytes it takes. */
  function ParseCommand(data: Bytes): Option<(Command, nat)> {
    var start := SkipPadding(data);
    if start == |data| then None
    else
      var rest := data[start..];
      var colon := Find(rest, COLON);
      if colon < |rest| then
        var named := ParseNamed(rest[..colon], rest[colon + 1..]);
        if named.None? then None
        else Some((named.value.0, start + colon + 1 + named.value.1))
      else
        var n := TokenLen(rest);
        Some((if rest[..n] == CLOSE then Close else Unsupported, start + n))
  }

  // --- Properties -----------------------------------------------------------

  /** A successful parse takes at least one byte and never more than there are. */
  lemma ParseConsumes(data: Bytes)
    ensures ParseCommand(data).Some? ==> 1 <= ParseCommand(data).value.1 <= |data|
  {
  }

  /** Bytes behind the command in the same chunk. */
  function Inlined(data: Bytes): Bytes
    requires ParseCommand(data).Some?
  {
    ParseConsumes(data);
    data[ParseCommand(data).value.1..]
  }

  function HexChar(d: nat): (b: byte)
    requires d < 16
    ensures HexDigit(b) == Some(d)
    ensures !IsPadding(b) && b != COLON && b != PERCENT && b != 0x2B
  {
    if d < 10 then 0x30 + d else 0x41 + (d - 10)
  }

  /** `width` upper-case hex digits of `n`. */
  function HexDigits(n: nat, width: nat): (bs: Bytes)
    ensures |bs| == width
    ensures forall i :: 0 <= i < width ==> HexDigit(bs[i]).Some? && bs[i] != COLON && bs[i] != PERCENT && bs[i] != 0x2B
  {
    if width == 0 then [] else HexDigits(n / 16, width - 1) + [HexChar(n % 16)]
  }

  function DigitCount(n: nat): nat { if n < 16 then 1 else 1 + DigitCount(n / 16) }

  /** `data_header`: "DATA" and at least eight hex digits. */
  function DataHeader(len: nat): Bytes {
    DATA + HexDigits(len, if DigitCount(len) > SIZE_WIDTH then DigitCount(len) else SIZE_WIDTH)
  }

  lemma {:induction false} DigitsRoundTrip(n: nat, width: nat)
    requires n < Pow16(width)
    ensures ParseDigits(HexDigits(n, width)) == Some(n)
  {
    if width > 0 {
      DigitsRoundTrip(n / 16, width - 1);
      var bs := HexDigits(n, width);
      assert bs[..|bs| - 1] == HexDigits(n / 16, width - 1);
    }
  }

  lemma {:induction false} DigitCountBounds(n: nat, width: nat)
    requires width > 0
    ensures n < Pow16(DigitCount(n))
    ensures n < Pow16(width) ==> DigitCount(n) <= width
    decreases n
  {
    if n < 16 {
      assert Pow16(1) == 16 * Pow16(0);
    } else {
      DigitCountBounds(n / 16, if width > 1 then width - 1 else 1);
      assert Pow16(DigitCount(n)) == 16 * Pow16(DigitCount(n / 16));
      if n < Pow16(width) {
        assert Pow16(width) == 16 * Pow16(width - 1);
      }
    }
  }

  lemma ParseHexOfDigits(n: nat, width: nat)
    requires width > 0 && n < Pow16(width)
    ensures ParseHex(HexDigits(n, width)) == Some(n)
  {
    DigitsRoundTrip(n, width);
    assert HexDigits(n, width)[0] != 0x2B;
  }

  /** The DATA header decodes back to the length, and is 12 bytes for every length a command can announce. */
  lemma DataHeaderRoundTrip(len: nat)
    ensures ParseHex(DataHeader(len)[4..]) == Some(len)
    ensures len < 0x1_0000_0000 <==> |DataHeader(len)| == 12
  {
    EightDigits();
    DigitCountBounds(len, SIZE_WIDTH);
    var w := if DigitCount(len) > SIZE_WIDTH then DigitCount(len) else SIZE_WIDTH;
    assert DataHeader(len)[4..] == HexDigits(len, w);
    if DigitCount(len) <= SIZE_WIDTH { Pow16Monotone(DigitCount(len), SIZE_WIDTH); }
    ParseHexOfDigits(len, w);
  }

  lemma EightDigits()
    ensures Pow16(8) == 0x1_0000_0000
  {
  }

  lemma {:induction false} Pow16Monotone(a: nat, b: nat)
    requires a <= b
    ensures Pow16(a) <= Pow16(b)
  {
    if a < b { Pow16Monotone(a, b - 1); }
  }

  /** What a host sends to announce a download. */
  function DownloadHeader(name: Bytes, kind: DownloadKind, size: Bytes): Bytes {
    name + [COLON] + (if kind.Fastboot? then [PERCENT] else []) + size
  }

  /** Names and marks a download command may carry; only the correctly spelled name takes the fastboot mark. */
  predicate DownloadForm(name: Bytes, kind: DownloadKind, size: Bytes) {
    && (name == DOWNLOAD || (name == DONWLOAD && kind.Plain?))
    && |size| == SIZE_WIDTH && ParseHex(size).Some?
  }

  lemma {:induction false} SkipPaddingOf(pad: Bytes, rest: Bytes)
    requires forall b :: b in pad ==> IsPadding(b)
    requires rest != [] && !IsPadding(rest[0])
    ensures SkipPadding(pad + rest) == |pad|
  {
    if pad == [] {
      assert pad + rest == rest;
    } else {
      assert (pad + rest)[0] == pad[0] && (pad + rest)[1..] == pad[1..] + rest;
      SkipPaddingOf(pad[1..], rest);
    }
  }

  lemma {:induction false} FindAfter(name: Bytes, b: byte, rest: Bytes)
    requires b !in name
    ensures Find(name + [b] + rest, b) == |name|
  {
    if name == [] {
      assert (name + [b] + rest)[0] == b;
    } else {
      assert (name + [b] + rest)[0] == name[0] && (name + [b] + rest)[1..] == name[1..] + [b] + rest;
      FindAfter(name[1..], b, rest);
    }
  }

  lemma SizeArgument(name: Bytes, kind: DownloadKind, size: Bytes, payload: Bytes)
    requires DownloadForm(name, kind, size)
    ensures ParseDownload(name, (if kind.Fastboot? then [PERCENT] else []) + size + payload) ==
            Some((Download(ParseHex(size).value, kind), |if kind.Fastboot? then [PERCENT] else []| + SIZE_WIDTH))
  {
    var mark: Bytes := if kind.Fastboot? then [PERCENT] else [];
    var args := mark + size + payload;
    assert args[|mark|..|mark| + SIZE_WIDTH] == size;
    if kind.Plain? {
      assert args[0] == size[0];
      if size[0] == PERCENT { NotHex(size); }
    }
  }

  lemma NotHex(size: Bytes)
    requires |size| > 1 && size[0] == PERCENT
    ensures ParseHex(size).None?
  {
    FirstDigitBad(size);
  }

  lemma {:induction false} FirstDigitBad(size: Bytes)
    requires size != [] && HexDigit(size[0]).None?
    ensures ParseDigits(size).None?
  {
    if |size| > 1 { FirstDigitBad(size[..|size| - 1]); }
  }

  lemma NamedDownload(name: Bytes, args: Bytes)
    requires name == DOWNLOAD || name == DONWLOAD
    ensures ParseNamed(name, args) == ParseDownload(name, args)
    ensures COLON !in name && name[0] == 0x64 && !IsPadding(name[0])
  {
    hide TokenLen, ParseDownload;
  }

  predicate AllPadding(pad: Bytes) { forall b :: b in pad ==> IsPadding(b) }

  /** A named command behind any padding is parsed from its name and arguments. */
  lemma NamedParses(pad: Bytes, name: Bytes, args: Bytes)
    requires AllPadding(pad) && COLON !in name && (name == [] || !IsPadding(name[0]))
    ensures ParseCommand(pad + (name + [COLON]) + args) ==
            (var named := ParseNamed(name, args);
             if named.None? then None else Some((named.value.0, |pad| + |name| + 1 + named.value.1)))
  {
    hide SkipPadding, Find, ParseNamed;
    var rest := name + [COLON] + args;
    assert pad + (name + [COLON]) + args == pad + rest;
    assert rest[0] == if name == [] then COLON else name[0];
    SkipPaddingOf(pad, rest);
    assert (pad + rest)[|pad|..] == rest;
    FindAfter(name, COLON, args);
    assert rest[..|name|] == name && rest[|name| + 1..] == args;
  }

  /** A download header after any padding parses to its length and leaves the payload behind it untouched. */
  lemma DownloadParses(pad: Bytes, name: Bytes, kind: DownloadKind, size: Bytes, payload: Bytes)
    requires AllPadding(pad) && DownloadForm(name, kind, size)
    ensures var header := DownloadHeader(name, kind, size);
            ParseCommand(pad + header + payload) == Some((Download(ParseHex(size).value, kind), |pad| + |header|))
  {
    hide SkipPadding, Find, ParseNamed, ParseHex, ParseDownload, ParseCommand, IsPadding, AllPadding, TokenLen;
    var mark: Bytes := if kind.Fastboot? then [PERCENT] else [];
    var args := mark + size + payload;
    assert pad + DownloadHeader(name, kind, size) + payload == pad + (name + [COLON]) + args;
    NamedDownload(name, args);
    SizeArgument(name, kind, size, payload);
    NamedParses(pad, name, args);
  }

  /** `front` is padding followed by a download header. */
  predicate IsPaddedHeader(front: Bytes, pad: Bytes, name: Bytes, kind: DownloadKind, size: Bytes) {
    && (forall b :: b in pad ==> IsPadding(b))
    && DownloadForm(name, kind, size)
    && front == pad + DownloadHeader(name, kind, size)
  }

  lemma SizeArgumentOnly(name: Bytes, args: Bytes) returns (size: Bytes)
    requires ParseNamed(name, args).Some? && ParseNamed(name, args).value.0.Download?
    ensures var (cmd, n) := ParseNamed(name, args).value;
            && DownloadForm(name, cmd.kind, size) && ParseHex(size) == Some(cmd.len)
            && n <= |args| && args[..n] == (if cmd.kind.Fastboot? then [PERCENT] else []) + size
  {
    hide ParseHex, TokenLen, ValidUtf8, Find;
    var mark := if ParseNamed(name, args).value.0.kind.Fastboot? then 1 else 0;
    size := args[mark..mark + SIZE_WIDTH];
  }

  /** Conversely, only such a header parses to a download, and the announced length is below 2^32. */
  lemma DownloadOnlyFromHeader(data: Bytes)
    requires ParseCommand(data).Some? && ParseCommand(data).value.0.Download?
    ensures var (cmd, n) := ParseCommand(data).value;
            && cmd.len < 0x1_0000_0000
            && n <= |data|
            && exists pad, name, size ::
                 IsPaddedHeader(data[..n], pad, name, cmd.kind, size) && ParseHex(size) == Some(cmd.len)
  {
    hide SkipPadding, Find, TokenLen, IsPadding, ParseNamed, ParseHex, Pow16;
    var (cmd, n) := ParseCommand(data).value;
    var start := SkipPadding(data);
    var rest := data[start..];
    var colon := Find(rest, COLON);
    var name, args := rest[..colon], rest[colon + 1..];
    var size := SizeArgumentOnly(name, args);
    ParseHexBound(size);
    EightDigits();
    var taken := ParseNamed(name, args).value.1;
    assert data[..n] == data[..start] + (name + [COLON] + args[..taken]);
    assert name + [COLON] + args[..taken] == DownloadHeader(name, cmd.kind, size);
    assert IsPaddedHeader(data[..n], data[..start], name, cmd.kind, size);
  }

  lemma ParseHexBound(size: Bytes)
    requires ParseHex(size).Some?
    ensures ParseHex(size).value < Pow16(|size|)
  {
    if size[0] == 0x2B { Pow16Monotone(|size| - 1, |size|); }
  }

  lemma {:induction false} FindNone(bs: Bytes, b: byte)
    ensures Find(bs, b) == |bs| <==> b !in bs
  {
    if bs != [] {
      FindNone(bs[1..], b);
      assert bs == [bs[0]] + bs[1..];
    }
  }

  lemma {:induction false} TokenOf(token: Bytes, rest: Bytes)
    requires forall b :: b in token ==> !IsPadding(b)
    ensures TokenLen(token + rest) == |token| + TokenLen(rest)
  {
    if token == [] {
      assert token + rest == rest;
    } else {
      assert (token + rest)[0] == token[0] && (token + rest)[1..] == token[1..] + rest;
      TokenOf(token[1..], rest);
    }
  }

  /**
   The colon is searched in the whole chunk, so "Close" is recognised exactly when it ends at padding or the
   end of the chunk and no later byte of the chunk is a colon.
   */
  lemma CloseParsesExactly(trailing: Bytes)
    ensures ParseCommand(CLOSE + trailing) == Some((Close, |CLOSE|)) <==>
              (trailing == [] || IsPadding(trailing[0])) && COLON !in trailing
  {
    hide ParseNamed, SkipPadding, Find, TokenLen;
    var data := CLOSE + trailing;
    assert data[0] == 0x43;
    assert SkipPadding(data) == 0 && data[0..] == data;
    FindNone(data, COLON);
    assert COLON in data <==> COLON in trailing by { assert data[|CLOSE|..] == trailing; }
    if COLON in trailing {
      var colon := Find(data, COLON);
      NamedIsNotClose(data[..colon], data[colon + 1..]);
    } else {
      assert forall b :: b in CLOSE ==> !IsPadding(b);
      TokenOf(CLOSE, trailing);
      assert data[..|CLOSE|] == CLOSE;
    }
  }

  lemma NamedIsNotClose(name: Bytes, args: Bytes)
    ensures ParseNamed(name, args).Some? ==> !ParseNamed(name, args).value.0.Close?
  {
    hide ValidUtf8, ParseHex;
  }
}
