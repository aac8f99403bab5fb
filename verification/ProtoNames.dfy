/** The command names as text: each command is read from its own name and from no other. */
module ProtoNames {
  import opened ByteSeq
  import opened Proto

  /** The bytes of an ASCII text. */
  function Ascii(text: string): (bs: Bytes)
    ensures |bs| == |text|
  {
    seq(|text|, i requires 0 <= i < |text| => text[i] as int % 256)
  }

  /** The constants of the parser spell the names of the protocol. */
  lemma Spelled()
    ensures WOPEN + [COLON] == Ascii("WOpen:") && FLASH + [COLON] == Ascii("flash:")
    ensures GETVAR + [COLON] == Ascii("getvar:") && FETCH + [COLON] == Ascii("fetch:")
  {
  }

  lemma ArgumentsSpelled()
    ensures SYSINFO == Ascii("sysinfo") && SYSINFO + DOT_JSON == Ascii("sysinfo.json")
  {
  }

  /** The download names, their two marks, "Close" and the reply prefix. */
  lemma DownloadSpelled()
    ensures DOWNLOAD == Ascii("download") && DONWLOAD == Ascii("donwload") && CLOSE == Ascii("Close")
    ensures DATA == Ascii("DATA") && [COLON] == Ascii(":") && [PERCENT] == Ascii("%")
  {
  }

  /** `token` is a whole argument in front of `trailing`. */
  predicate WholeToken(token: Bytes, trailing: Bytes) {
    (forall b :: b in token ==> !IsPadding(b)) && (trailing == [] || IsPadding(trailing[0]))
  }

  lemma TokenLenOf(token: Bytes, trailing: Bytes)
    requires WholeToken(token, trailing)
    ensures TokenLen(token + trailing) == |token| && (token + trailing)[..|token|] == token
  {
    TokenOf(token, trailing);
  }

  lemma PlainName(name: Bytes)
    requires name == WOPEN || name == FLASH || name == GETVAR || name == FETCH
    ensures COLON !in name && name != [] && !IsPadding(name[0])
  {
  }

  lemma NamedWOpenAndFlash(token: Bytes, trailing: Bytes)
    requires WholeToken(token, trailing)
    ensures ParseNamed(WOPEN, token + trailing) == Some((WOpen, |token|))
    ensures ParseNamed(FLASH, token + trailing) == Some((Flash, |token|))
  {
    hide ValidUtf8, Find, ParseDownload, TokenLen;
    TokenLenOf(token, trailing);
  }

  /** "WOpen:" and "flash:", whatever argument follows. */
  lemma WOpenAndFlashParse(pad: Bytes, token: Bytes, trailing: Bytes)
    requires AllPadding(pad) && WholeToken(token, trailing)
    ensures ParseCommand(pad + Ascii("WOpen:") + (token + trailing)) == Some((WOpen, |pad| + 6 + |token|))
    ensures ParseCommand(pad + Ascii("flash:") + (token + trailing)) == Some((Flash, |pad| + 6 + |token|))
  {
    hide *;
    Spelled();
    PlainName(WOPEN);
    PlainName(FLASH);
    NamedWOpenAndFlash(token, trailing);
    NamedParses(pad, WOPEN, token + trailing);
    NamedParses(pad, FLASH, token + trailing);
  }

  lemma NamedGetVar(arg: Bytes, trailing: Bytes)
    requires WholeToken(arg, trailing)
    ensures ParseNamed(GETVAR, arg + trailing) == Some((if arg != [] && ValidUtf8(arg) then GetVar(arg) else Unsupported, |arg|))
  {
    hide ValidUtf8, Find, ParseDownload, TokenLen;
    TokenLenOf(arg, trailing);
  }

  lemma NamedFetch(target: Bytes, more: Bytes, trailing: Bytes)
    requires WholeToken(target + more, trailing) && COLON !in target && (more == [] || more[0] == COLON)
    ensures ParseNamed(FETCH, target + more + trailing) ==
            if ValidUtf8(target + more) then Some((Fetched(target), |target + more|)) else None
  {
    hide ValidUtf8, Find, ParseDownload, TokenLen, Ascii;
    ArgumentsSpelled();
    var token := target + more;
    TokenLenOf(token, trailing);
    TargetOf(target, more);
    var args := token + trailing;
    assert args[..Find(args[..|token|], COLON)] == token[..Find(token, COLON)];
  }

  /** "getvar:" followed by a non-empty text asks for that variable; otherwise it is not supported. */
  lemma GetVarParses(pad: Bytes, arg: Bytes, trailing: Bytes)
    requires AllPadding(pad) && WholeToken(arg, trailing)
    ensures ParseCommand(pad + Ascii("getvar:") + (arg + trailing)) ==
            Some((if arg != [] && ValidUtf8(arg) then GetVar(arg) else Unsupported, |pad| + 7 + |arg|))
  {
    hide *;
    Spelled();
    PlainName(GETVAR);
    NamedGetVar(arg, trailing);
    NamedParses(pad, GETVAR, arg + trailing);
  }

  lemma {:induction false} AsciiIsUtf8(bs: Bytes)
    requires forall i :: 0 <= i < |bs| ==> bs[i] < 0x80
    ensures ValidUtf8(bs)
  {
    if bs != [] { AsciiIsUtf8(bs[1..]); }
  }

  /** The part of a fetch argument in front of the first colon. */
  lemma TargetOf(target: Bytes, more: Bytes)
    requires COLON !in target && (more == [] || more[0] == COLON)
    ensures (target + more)[..Find(target + more, COLON)] == target
  {
    if more == [] {
      FindNone(target, COLON);
      assert target + more == target;
    } else {
      FindAfter(target, COLON, more[1..]);
      assert target + more == target + [COLON] + more[1..];
    }
  }

  /** What a fetch of `target` asks for. */
  function Fetched(target: Bytes): Command {
    if target == Ascii("sysinfo") then Fetch(Sysinfo)
    else if target == Ascii("sysinfo.json") then Fetch(SysinfoJson)
    else FetchUnknownPart
  }

  /** "fetch:" followed by a target, which may be followed by a colon and more. */
  lemma FetchParses(pad: Bytes, target: Bytes, more: Bytes, trailing: Bytes)
    requires AllPadding(pad) && WholeToken(target + more, trailing)
    requires COLON !in target && (more == [] || more[0] == COLON)
    ensures ParseCommand(pad + Ascii("fetch:") + (target + more + trailing)) ==
            if ValidUtf8(target + more) then Some((Fetched(target), |pad| + 6 + |target + more|)) else None
  {
    hide *;
    Spelled();
    PlainName(FETCH);
    NamedFetch(target, more, trailing);
    NamedParses(pad, FETCH, target + more + trailing);
  }

  /** The two documents, asked for by their plain names. */
  lemma SysinfoParses(pad: Bytes, trailing: Bytes)
    requires AllPadding(pad) && (trailing == [] || IsPadding(trailing[0]))
    ensures ParseCommand(pad + Ascii("fetch:") + (Ascii("sysinfo") + trailing)) == Some((Fetch(Sysinfo), |pad| + 13))
    ensures ParseCommand(pad + Ascii("fetch:") + (Ascii("sysinfo.json") + trailing)) == Some((Fetch(SysinfoJson), |pad| + 18))
  {
    hide ParseCommand, ValidUtf8, Ascii, IsPadding;
    var short, long := Ascii("sysinfo"), Ascii("sysinfo.json");
    PlainTarget(short);
    PlainTarget(long);
    assert short + [] == short && long + [] == long;
    DifferentTargets();
    FetchParses(pad, short, [], trailing);
    FetchParses(pad, long, [], trailing);
  }

  lemma PlainTarget(target: Bytes)
    requires target == Ascii("sysinfo") || target == Ascii("sysinfo.json")
    ensures COLON !in target && ValidUtf8(target) && forall b :: b in target ==> !IsPadding(b)
  {
    hide ValidUtf8;
    AsciiIsUtf8(target);
  }

  lemma DifferentTargets()
    ensures Ascii("sysinfo") != Ascii("sysinfo.json")
  {
  }

  /** Any other name is not supported, but its argument is taken. */
  lemma UnknownIsUnsupported(pad: Bytes, name: Bytes, token: Bytes, trailing: Bytes)
    requires AllPadding(pad) && COLON !in name && (name == [] || !IsPadding(name[0])) && WholeToken(token, trailing)
    requires name != Ascii("download") && name != Ascii("donwload") && name != Ascii("WOpen")
    requires name != Ascii("getvar") && name != Ascii("fetch") && name != Ascii("flash")
    ensures ParseCommand(pad + (name + [COLON]) + (token + trailing)) == Some((Unsupported, |pad| + |name| + 1 + |token|))
  {
    hide *;
    DownloadSpelled();
    PlainSpelled();
    NamedUnknown(name, token, trailing);
    NamedParses(pad, name, token + trailing);
  }

  lemma PlainSpelled()
    ensures WOPEN == Ascii("WOpen") && GETVAR == Ascii("getvar") && FETCH == Ascii("fetch") && FLASH == Ascii("flash")
  {
  }

  lemma NamedUnknown(name: Bytes, token: Bytes, trailing: Bytes)
    requires WholeToken(token, trailing)
    requires name != DOWNLOAD && name != DONWLOAD && name != WOPEN && name != GETVAR && name != FETCH && name != FLASH
    ensures ParseNamed(name, token + trailing) == Some((Unsupported, |token|))
  {
    hide ValidUtf8, Find, ParseDownload, TokenLen;
    TokenLenOf(token, trailing);
  }

  /** Without a colon anywhere only "Close" is known, and padding alone is no command. */
  lemma UnnamedParses(pad: Bytes, token: Bytes, trailing: Bytes)
    requires AllPadding(pad) && WholeToken(token, trailing) && COLON !in token + trailing
    ensures token != [] ==>
              ParseCommand(pad + (token + trailing)) ==
              Some((if token == Ascii("Close") then Close else Unsupported, |pad| + |token|))
    ensures ParseCommand(pad) == None
  {
    hide SkipPadding, Find, TokenLen, ParseNamed, Ascii;
    DownloadSpelled();
    if token != [] {
      var rest := token + trailing;
      assert rest[0] == token[0];
      SkipPaddingOf(pad, rest);
      assert (pad + rest)[|pad|..] == rest;
      FindNone(rest, COLON);
      TokenLenOf(token, trailing);
    }
  }

  // --- The converse ---------------------------------------------------------

  /** `data` is padding, then `text`, then `args`. */
  predicate Reads(data: Bytes, pad: Bytes, text: string, args: Bytes) {
    AllPadding(pad) && data == pad + Ascii(text) + args
  }

  /** Where a command with a colon is cut: padding, the name in front of the first colon, and the rest. */
  lemma CutUp(data: Bytes) returns (pad: Bytes, name: Bytes, args: Bytes)
    requires COLON in data
    ensures AllPadding(pad) && data == pad + (name + [COLON]) + args
    ensures COLON !in name && (name == [] || !IsPadding(name[0]))
  {
    hide *;
    var start := SkipPadding(data);
    pad := data[..start];
    var rest := data[start..];
    PaddingHasNoColon(data);
    assert data == pad + rest;
    FindNone(rest, COLON);
    var colon := Find(rest, COLON);
    name, args := rest[..colon], rest[colon + 1..];
    assert rest == name + [COLON] + args;
    assert data == pad + (name + [COLON]) + args;
    if name != [] { assert name[0] == rest[0] == data[start]; }
  }

  lemma Named(data: Bytes) returns (pad: Bytes, name: Bytes, args: Bytes)
    requires ParseCommand(data).Some? && COLON in data
    ensures AllPadding(pad) && data == pad + (name + [COLON]) + args
    ensures var (c, n) := ParseCommand(data).value;
            ParseNamed(name, args) == Some((c, n - |pad| - |name| - 1))
  {
    hide *;
    pad, name, args := CutUp(data);
    NamedParses(pad, name, args);
  }

  lemma PaddingHasNoColon(data: Bytes)
    ensures var pad := data[..SkipPadding(data)]; AllPadding(pad) && COLON !in pad
  {
  }

  lemma OnlyNamed(name: Bytes, args: Bytes)
    requires ParseNamed(name, args).Some?
    ensures var (c, n) := ParseNamed(name, args).value;
            && (c.WOpen? ==> name == WOPEN && n == TokenLen(args))
            && (c.Flash? ==> name == FLASH && n == TokenLen(args))
            && (c.GetVar? ==> name == GETVAR && n == TokenLen(args) && c.arg == args[..n] && c.arg != [])
            && (c.Fetch? || c.FetchUnknownPart? ==>
                  name == FETCH && n == TokenLen(args) && c == Fetched(args[..Find(args[..n], COLON)]))
            && !c.Close?
  {
    hide ValidUtf8, ParseHex, TokenLen, Ascii;
    ArgumentsSpelled();
  }

  /** Without a colon there is no named command. */
  lemma UnnamedIsCloseOrUnsupported(data: Bytes)
    requires ParseCommand(data).Some? && COLON !in data
    ensures var c := ParseCommand(data).value.0; c.Close? || c.Unsupported?
  {
    var rest := data[SkipPadding(data)..];
    FindNone(rest, COLON);
  }

  /**
   Each command arises only from its own name, with the byte count of that name and its argument: what parses as
   `c` is padding, the name of `c`, a colon and the argument `c` carries.
   */
  lemma CommandOnlyFromName(data: Bytes)
    requires ParseCommand(data).Some?
    ensures var (c, n) := ParseCommand(data).value;
            && (c.WOpen? ==> exists pad, args :: Reads(data, pad, "WOpen:", args) && n == |pad| + 6 + TokenLen(args))
            && (c.Flash? ==> exists pad, args :: Reads(data, pad, "flash:", args) && n == |pad| + 6 + TokenLen(args))
            && (c.GetVar? ==>
                  exists pad, args :: Reads(data, pad, "getvar:", args) && n == |pad| + 7 + TokenLen(args)
                                      && c.arg == args[..TokenLen(args)] && c.arg != [])
            && (c.Fetch? || c.FetchUnknownPart? ==>
                  exists pad, args :: Reads(data, pad, "fetch:", args) && n == |pad| + 6 + TokenLen(args)
                                      && c == Fetched(args[..Find(args[..TokenLen(args)], COLON)]))
  {
    hide ParseCommand, ParseNamed, TokenLen, Find, Ascii, Fetched;
    Spelled();
    if COLON in data {
      var pad, name, args := Named(data);
      OnlyNamed(name, args);
      var c := ParseCommand(data).value.0;
      if c.WOpen? { assert Reads(data, pad, "WOpen:", args); }
      if c.Flash? { assert Reads(data, pad, "flash:", args); }
      if c.GetVar? { assert Reads(data, pad, "getvar:", args); }
      if c.Fetch? || c.FetchUnknownPart? { assert Reads(data, pad, "fetch:", args); }
    } else {
      UnnamedIsCloseOrUnsupported(data);
    }
  }

  // --- Sizes as text -----------------------------------------------------------

  /** Hex digits are read most significant first. */
  lemma {:induction false} DigitsByPlace(first: byte, bs: Bytes)
    requires HexDigit(first).Some? && ParseDigits(bs).Some?
    ensures ParseDigits([first] + bs) == Some(HexDigit(first).value * Pow16(|bs|) + ParseDigits(bs).value)
  {
    hide HexDigit;
    var all := [first] + bs;
    if bs == [] {
      assert all == [first] && all[..0] == [];
    } else {
      var front := bs[..|bs| - 1];
      assert all[..|all| - 1] == [first] + front;
      DigitsByPlace(first, front);
      assert 16 * (HexDigit(first).value * Pow16(|front|)) == HexDigit(first).value * Pow16(|bs|);
    }
  }

  /** The data-phase reply is the text "DATA" and upper-case digits, which a host reads back by place. */
  lemma HeaderText(len: nat)
    ensures DataHeader(len)[..4] == Ascii("DATA")
    ensures forall i :: 4 <= i < |DataHeader(len)| ==> '0' as int <= DataHeader(len)[i] <= '9' as int || 'A' as int <= DataHeader(len)[i] <= 'F' as int
  {
    hide Ascii, DigitCount;
    DownloadSpelled();
    var w := if DigitCount(len) > SIZE_WIDTH then DigitCount(len) else SIZE_WIDTH;
    UpperCase(len, w);
    assert forall i :: 4 <= i < |DataHeader(len)| ==> DataHeader(len)[i] == HexDigits(len, w)[i - 4];
  }

  lemma {:induction false} UpperCase(n: nat, width: nat)
    ensures forall i :: 0 <= i < width ==> var b := HexDigits(n, width)[i]; 0x30 <= b <= 0x39 || 0x41 <= b <= 0x46
  {
    if width > 0 { UpperCase(n / 16, width - 1); }
  }

  /** What the parser takes for padding, and how a size is spelled: either case, and a plus sign in front. */
  lemma SizeSpelling(b: byte, digits: Bytes)
    ensures IsPadding(b) <==> b in Ascii("\0 \t\n\r") + [0x0C]
    ensures 'A' as int <= b <= 'F' as int ==> HexDigit(b).Some? && HexDigit(b + 32) == HexDigit(b) && HexDigit(b).value == b - 'A' as int + 10
    ensures digits != [] && ParseDigits(digits).Some? ==> ParseHex(Ascii("+") + digits) == ParseHex(digits) == ParseDigits(digits)
  {
    var blanks := Ascii("\0 \t\n\r") + [0x0C];
    assert blanks == [0x00, 0x20, 0x09, 0x0A, 0x0D, 0x0C];
    assert (Ascii("+") + digits)[1..] == digits && Ascii("+")[0] == 0x2B;
    if digits != [] && digits[0] == 0x2B { FirstDigitBad(digits); }
  }
}
