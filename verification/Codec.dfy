/** Unpadded base64url (sections 3.2 and 5 of RFC 4648), packet framing, and the byte
    layout of a sealed message. */
module Codec {
  import opened Wrappers
  import opened Records

  type Digit = d: int | 0 <= d < 64

  // ----- characters -----

  /** The standard base64 alphabet. */
  function StdChar(d: Digit): char {
    if d < 26 then ('A' as int + d) as char
    else if d < 52 then ('a' as int + (d - 26)) as char
    else if d < 62 then ('0' as int + (d - 52)) as char
    else if d == 62 then '+' else '/'
  }

  function StdDigit(c: char): Option<Digit> {
    if 'A' <= c <= 'Z' then Some(c as int - 'A' as int)
    else if 'a' <= c <= 'z' then Some(c as int - 'a' as int + 26)
    else if '0' <= c <= '9' then Some(c as int - '0' as int + 52)
    else if c == '+' then Some(62)
    else if c == '/' then Some(63)
    else None
  }

  function ToUrl(c: char): char {
    if c == '+' then '-' else if c == '/' then '_' else c
  }

  function FromUrl(c: char): char {
    if c == '-' then '+' else if c == '_' then '/' else c
  }

  function MapChars(f: char -> char, s: string): string {
    seq(|s|, i requires 0 <= i < |s| => f(s[i]))
  }

  function TrimPad(s: string): string {
    if s != "" && s[|s| - 1] == '=' then TrimPad(s[..|s| - 1]) else s
  }

  // ----- three bytes, four digits -----

  function Digits(bs: seq<byte>): seq<Digit> {
    if |bs| == 0 then []
    else if |bs| == 1 then [Hi(bs[0]), Mid1(bs[0], 0)]
    else if |bs| == 2 then [Hi(bs[0]), Mid1(bs[0], bs[1]), Mid2(bs[1], 0)]
    else [Hi(bs[0]), Mid1(bs[0], bs[1]), Mid2(bs[1], bs[2]), Lo(bs[2])] + Digits(bs[3..])
  }

  function Hi(a: byte): Digit { (a as int) / 4 }
  function Mid1(a: byte, b: byte): Digit { (a as int % 4) * 16 + (b as int) / 16 }
  function Mid2(b: byte, c: byte): Digit { (b as int % 16) * 4 + (c as int) / 64 }
  function Lo(c: byte): Digit { c as int % 64 }

  function Byte1(p: Digit, q: Digit): byte { (p * 4 + q / 16) as byte }
  function Byte2(q: Digit, r: Digit): byte { ((q % 16) * 16 + r / 4) as byte }
  function Byte3(r: Digit, s: Digit): byte { ((r % 4) * 64 + s) as byte }

  /** Excess low bits of a last, short group are dropped. */
  function Bytes(ds: seq<Digit>): seq<byte>
    requires |ds| % 4 != 1
  {
    if |ds| == 0 then []
    else if |ds| == 2 then [Byte1(ds[0], ds[1])]
    else if |ds| == 3 then [Byte1(ds[0], ds[1]), Byte2(ds[1], ds[2])]
    else [Byte1(ds[0], ds[1]), Byte2(ds[1], ds[2]), Byte3(ds[2], ds[3])] + Bytes(ds[4..])
  }

  /** Base64 text of n bytes is ceil(4n/3) digits long. */
  lemma {:induction false} DigitCount(bs: seq<byte>)
    ensures |Digits(bs)| == (4 * |bs| + 2) / 3
    ensures |Digits(bs)| % 4 != 1
  {
    if |bs| > 2 {
      var n, k := |bs| - 3, |Digits(bs[3..])|;
      DigitCount(bs[3..]);
      assert |Digits(bs)| == k + 4 && (4 * (n + 3) + 2) / 3 == (4 * n + 2) / 3 + 4;
    }
  }

  /** The low bits of a joined pair, and its high bits. */
  lemma Unjoin(hi: int, lo: int, n: int)
    requires 0 <= lo < n && (n == 4 || n == 16)
    ensures (hi * n + lo) % n == lo && (hi * n + lo) / n == hi
  {}

  lemma FirstByte(a: byte, b: byte)
    ensures Byte1(Hi(a), Mid1(a, b)) == a
  {
    Unjoin(a as int % 4, b as int / 16, 16);
  }

  lemma SecondByte(a: byte, b: byte, c: byte)
    ensures Byte2(Mid1(a, b), Mid2(b, c)) == b
  {
    Unjoin(a as int % 4, b as int / 16, 16);
    Unjoin(b as int % 16, c as int / 64, 4);
  }

  lemma ThirdByte(b: byte, c: byte)
    ensures Byte3(Mid2(b, c), Lo(c)) == c
  {
    Unjoin(b as int % 16, c as int / 64, 4);
  }

  lemma BytesOfTwo(p: Digit, q: Digit)
    ensures Bytes([p, q]) == [Byte1(p, q)]
  {}

  lemma BytesOfThree(p: Digit, q: Digit, r: Digit)
    ensures Bytes([p, q, r]) == [Byte1(p, q), Byte2(q, r)]
  {}

  lemma FourMore(n: nat)
    ensures (4 + n) % 4 == n % 4
  {}

  lemma BytesUnfold(ds: seq<Digit>)
    requires |ds| >= 4 && |ds| % 4 != 1 && |ds[4..]| % 4 != 1
    ensures Bytes(ds) == [Byte1(ds[0], ds[1]), Byte2(ds[1], ds[2]), Byte3(ds[2], ds[3])] + Bytes(ds[4..])
  {}

  lemma BytesOfGroup(p: Digit, q: Digit, r: Digit, s: Digit, rest: seq<Digit>)
    requires |rest| % 4 != 1
    ensures Bytes([p, q, r, s] + rest) == [Byte1(p, q), Byte2(q, r), Byte3(r, s)] + Bytes(rest)
  {
    var ds := [p, q, r, s] + rest;
    assert ds[4..] == rest;
    FourMore(|rest|);
    BytesUnfold(ds);
  }

  lemma WholeGroup(a: byte, b: byte, c: byte, rest: seq<Digit>)
    requires |rest| % 4 != 1
    ensures Bytes([Hi(a), Mid1(a, b), Mid2(b, c), Lo(c)] + rest) == [a, b, c] + Bytes(rest)
  {
    FirstByte(a, b);
    SecondByte(a, b, c);
    ThirdByte(b, c);
    BytesOfGroup(Hi(a), Mid1(a, b), Mid2(b, c), Lo(c), rest);
  }

  lemma LastOne(a: byte)
    ensures Bytes([Hi(a), Mid1(a, 0)]) == [a]
  {
    FirstByte(a, 0);
    BytesOfTwo(Hi(a), Mid1(a, 0));
  }

  lemma LastTwo(a: byte, b: byte)
    ensures Bytes([Hi(a), Mid1(a, b), Mid2(b, 0)]) == [a, b]
  {
    FirstByte(a, b);
    SecondByte(a, b, 0);
    BytesOfThree(Hi(a), Mid1(a, b), Mid2(b, 0));
  }

  lemma ThreeAndRest(bs: seq<byte>)
    requires |bs| > 2
    ensures bs == [bs[0], bs[1], bs[2]] + bs[3..]
  {}

  lemma {:induction false} DigitsRoundTrip(bs: seq<byte>)
    ensures |Digits(bs)| % 4 != 1 && Bytes(Digits(bs)) == bs
  {
    DigitCount(bs);
    if |bs| == 1 {
      LastOne(bs[0]);
    } else if |bs| == 2 {
      LastTwo(bs[0], bs[1]);
    } else if |bs| > 2 {
      DigitsRoundTrip(bs[3..]);
      WholeGroup(bs[0], bs[1], bs[2], Digits(bs[3..]));
      ThreeAndRest(bs);
    }
  }

  // ----- btoa and atob -----

  function Text(ds: seq<Digit>): string {
    seq(|ds|, i requires 0 <= i < |ds| => StdChar(ds[i]))
  }

  function Btoa(bs: seq<byte>): string {
    Text(Digits(bs)) + (if |bs| % 3 == 1 then "==" else if |bs| % 3 == 2 then "=" else "")
  }

  predicate IsSpace(c: char) {
    c == ' ' || c == '\t' || c == '\n' || c == '\r' || c as int == 12
  }

  function Drop(p: char -> bool, s: string): string {
    if s == "" then "" else (if p(s[0]) then "" else [s[0]]) + Drop(p, s[1..])
  }

  function ReadDigits(s: string): Option<seq<Digit>> {
    if s == "" then Some([]) else
      match (StdDigit(s[0]), ReadDigits(s[1..]))
      case (Some(d), Some(ds)) => Some([d] + ds)
      case _ => None
  }

  function Unpad(s: string): string {
    if |s| % 4 != 0 || s == "" || s[|s| - 1] != '=' then s
    else if s[|s| - 2] == '=' then s[..|s| - 2] else s[..|s| - 1]
  }

  /** The browser's forgiving decoder: spaces are skipped, at most two pads removed. */
  function Atob(text: string): Option<seq<byte>> {
    var s := Unpad(Drop(IsSpace, text));
    match ReadDigits(s)
    case Some(ds) => if |ds| % 4 == 1 then None else Some(Bytes(ds))
    case None => None
  }

  function B64uOf(bs: seq<byte>): string {
    TrimPad(MapChars(ToUrl, Btoa(bs)))
  }

  function PadFor(n: nat): string {
    match n % 4
    case 0 => ""
    case 1 => "==="
    case 2 => "=="
    case _ => "="
  }

  function FromB64uOf(str: string): Option<seq<byte>> {
    var s := MapChars(FromUrl, str);
    Atob(s + PadFor(|s|))
  }

  /** Builds the binary string in slices, then encodes it. */
  method B64u(bs: seq<byte>) returns (s: string)
    ensures s == B64uOf(bs)
  {
    var binary: seq<byte> := [];
    var i := 0;
    while i < |bs|
      invariant 0 <= i
      invariant binary == bs[..if i <= |bs| then i else |bs|]
    {
      var end := if i + 0x8000 <= |bs| then i + 0x8000 else |bs|;
      binary := binary + bs[i..end];
      i := i + 0x8000;
    }
    assert binary == bs;
    s := TrimPad(MapChars(ToUrl, Btoa(binary)));
  }

  method FromB64u(str: string) returns (out: Option<array<byte>>)
    ensures out.Some? <==> FromB64uOf(str).Some?
    ensures out.Some? ==> fresh(out.value) && Some(out.value[..]) == FromB64uOf(str)
  {
    var s := MapChars(FromUrl, str);
    var bin := Atob(s + PadFor(|s|));
    if bin.None? { return None; }
    var buf := new byte[|bin.value|];
    for i := 0 to |bin.value|
      invariant buf[..i] == bin.value[..i]
    {
      buf[i] := bin.value[i];
    }
    assert buf[..] == buf[..|bin.value|] == bin.value;
    out := Some(buf);
  }

  // ----- the round trip -----

  lemma StdCharRoundTrip(d: Digit)
    ensures StdDigit(StdChar(d)) == Some(d)
    ensures FromUrl(ToUrl(StdChar(d))) == StdChar(d)
    ensures StdChar(d) != '=' && ToUrl(StdChar(d)) != '=' && !IsSpace(StdChar(d))
  {}

  lemma {:induction false} ReadText(ds: seq<Digit>)
    ensures ReadDigits(Text(ds)) == Some(ds)
  {
    if ds != [] {
      StdCharRoundTrip(ds[0]);
      ReadText(ds[1..]);
      assert Text(ds)[1..] == Text(ds[1..]);
      assert ds == [ds[0]] + ds[1..];
    }
  }

  lemma {:induction false} DropNothing(p: char -> bool, s: string)
    requires forall i :: 0 <= i < |s| ==> !p(s[i])
    ensures Drop(p, s) == s
  {
    if s != "" {
      DropNothing(p, s[1..]);
      assert s == [s[0]] + s[1..];
    }
  }

  lemma {:induction false} TrimOnlyPads(s: string, pads: string)
    requires s == "" || s[|s| - 1] != '='
    requires forall i :: 0 <= i < |pads| ==> pads[i] == '='
    ensures TrimPad(s + pads) == s
  {
    if pads == "" {
      assert s + pads == s;
    } else {
      TrimOnlyPads(s, pads[..|pads| - 1]);
      assert (s + pads)[..|s + pads| - 1] == s + pads[..|pads| - 1];
    }
  }

  function UrlText(ds: seq<Digit>): string {
    MapChars(ToUrl, Text(ds))
  }

  /** The encoder's output: the URL-safe characters of the digits, without padding. */
  lemma B64uIsUrlText(bs: seq<byte>)
    ensures B64uOf(bs) == UrlText(Digits(bs))
  {
    var ds := Digits(bs);
    var pads := Btoa(bs)[|ds|..];
    assert MapChars(ToUrl, Btoa(bs)) == UrlText(ds) + pads;
    if ds != [] { StdCharRoundTrip(ds[|ds| - 1]); }
    TrimOnlyPads(UrlText(ds), pads);
  }

  lemma PaddedLength(n: nat)
    ensures n % 4 == 2 ==> (n + 2) % 4 == 0
    ensures n % 4 == 3 ==> (n + 1) % 4 == 0
  {}

  lemma UnpadOne(t: string)
    requires |t| % 4 == 3 && t[|t| - 1] != '='
    ensures Unpad(t + "=") == t
  {
    var s, n := t + "=", |t|;
    PaddedLength(n);
    assert |s| == n + 1 && s[n] == '=' && s[n - 1] == t[n - 1] && s[..n] == t;
  }

  lemma UnpadTwo(t: string)
    requires |t| % 4 == 2
    ensures Unpad(t + "==") == t
  {
    var s, n := t + "==", |t|;
    PaddedLength(n);
    assert |s| == n + 2 && s[n] == '=' && s[n + 1] == '=' && s[..n] == t;
  }

  lemma UnpadText(t: string, pad: string)
    requires |t| % 4 != 1 && pad == PadFor(|t|) && (t == "" || t[|t| - 1] != '=')
    ensures Unpad(t + pad) == t
  {
    if |t| % 4 == 0 {
      assert t + pad == t;
    } else if |t| % 4 == 2 {
      UnpadTwo(t);
    } else {
      UnpadOne(t);
    }
  }

  lemma NoSpaces(ds: seq<Digit>, pad: string)
    requires forall i :: 0 <= i < |pad| ==> pad[i] == '='
    ensures Drop(IsSpace, Text(ds) + pad) == Text(ds) + pad
  {
    var s := Text(ds) + pad;
    forall i | 0 <= i < |s| ensures !IsSpace(s[i]) {
      if i < |ds| { StdCharRoundTrip(ds[i]); }
    }
    DropNothing(IsSpace, s);
  }

  lemma AtobText(ds: seq<Digit>, pad: string)
    requires |ds| % 4 != 1 && pad == PadFor(|ds|)
    ensures Atob(Text(ds) + pad) == Some(Bytes(ds))
  {
    NoSpaces(ds, pad);
    if ds != [] { StdCharRoundTrip(ds[|ds| - 1]); }
    UnpadText(Text(ds), pad);
    ReadText(ds);
  }

  /** Decoding undoes encoding, for every byte sequence. */
  lemma Base64RoundTrip(bs: seq<byte>)
    ensures FromB64uOf(B64uOf(bs)) == Some(bs)
    ensures |B64uOf(bs)| == (4 * |bs| + 2) / 3
  {
    var ds := Digits(bs);
    B64uIsUrlText(bs);
    DigitCount(bs);
    forall i | 0 <= i < |ds| ensures FromUrl(UrlText(ds)[i]) == Text(ds)[i] { StdCharRoundTrip(ds[i]); }
    assert MapChars(FromUrl, UrlText(ds)) == Text(ds);
    AtobText(ds, PadFor(|ds|));
    DigitsRoundTrip(bs);
  }

  // ----- the server's view of a public key -----

  const P256_PUB_LEN := 65

  function UrlDigit(c: char): Option<Digit> {
    if c == '-' then Some(62) else if c == '_' then Some(63)
    else if c == '+' || c == '/' then None else StdDigit(c)
  }

  function ReadUrlDigits(s: string): Option<seq<Digit>> {
    if s == "" then Some([]) else
      match (UrlDigit(s[0]), ReadUrlDigits(s[1..]))
      case (Some(d), Some(ds)) => Some([d] + ds)
      case _ => None
  }

  predicate IsNewline(c: char) { c == '\n' || c == '\r' }

  /** The server's unpadded URL decoder: line breaks are skipped, pads are errors. */
  function RawUrlDecode(s: string): Option<seq<byte>> {
    match ReadUrlDigits(Drop(IsNewline, s))
    case Some(ds) => if |ds| % 4 == 1 then None else Some(Bytes(ds))
    case None => None
  }

  predicate ValidPub(pub: string) {
    var b := RawUrlDecode(pub);
    b.Some? && |b.value| == P256_PUB_LEN && b.value[0] == 4
  }

  lemma UrlCharRoundTrip(d: Digit)
    ensures UrlDigit(ToUrl(StdChar(d))) == Some(d)
    ensures !IsNewline(ToUrl(StdChar(d)))
  {}

  lemma UrlTextTail(ds: seq<Digit>)
    requires ds != []
    ensures UrlText(ds)[1..] == UrlText(ds[1..]) && ds == [ds[0]] + ds[1..]
  {}

  lemma {:induction false} ReadUrlText(ds: seq<Digit>)
    ensures ReadUrlDigits(UrlText(ds)) == Some(ds)
  {
    if ds != [] {
      UrlCharRoundTrip(ds[0]);
      ReadUrlText(ds[1..]);
      UrlTextTail(ds);
    }
  }

  lemma NoNewlines(ds: seq<Digit>)
    ensures Drop(IsNewline, UrlText(ds)) == UrlText(ds)
  {
    forall i | 0 <= i < |UrlText(ds)| ensures !IsNewline(UrlText(ds)[i]) { UrlCharRoundTrip(ds[i]); }
    DropNothing(IsNewline, UrlText(ds));
  }

  /** The server accepts a client's encoded key exactly when it is an uncompressed point. */
  lemma EncodedPointIsValid(point: seq<byte>)
    ensures RawUrlDecode(B64uOf(point)) == Some(point)
    ensures ValidPub(B64uOf(point)) <==> |point| == 65 && point[0] == 4
  {
    B64uIsUrlText(point);
    NoNewlines(Digits(point));
    ReadUrlText(Digits(point));
    DigitsRoundTrip(point);
  }

  // ----- framing -----

  const TWO_32 := 0x1_0000_0000

  function U32(n: nat): seq<byte> {
    var m := n % TWO_32;
    [(m / 0x100_0000) as byte, (m / 0x1_0000 % 256) as byte, (m / 256 % 256) as byte, (m % 256) as byte]
  }

  function FromU32(b: seq<byte>): nat
    requires |b| == 4
  {
    b[0] as int * 0x100_0000 + b[1] as int * 0x1_0000 + b[2] as int * 256 + b[3] as int
  }

  lemma Quotient(m: nat)
    ensures m == m / 256 * 256 + m % 256 && m / 256 / 256 == m / 0x1_0000 && m / 0x1_0000 / 256 == m / 0x100_0000
  {}

  lemma U32RoundTrip(n: nat)
    ensures FromU32(U32(n)) == n % TWO_32
  {
    var m := n % TWO_32;
    Quotient(m);
    Quotient(m / 256);
    Quotient(m / 0x1_0000);
  }

  function PackOf(header: seq<byte>, body: seq<byte>): seq<byte> {
    U32(|header|) + header + body
  }

  method Pack(header: seq<byte>, body: seq<byte>) returns (out: array<byte>)
    ensures fresh(out) && out[..] == PackOf(header, body)
  {
    out := new byte[4 + |header| + |body|];
    var len := U32(|header|);
    forall i | 0 <= i < 4 { out[i] := len[i]; }
    forall i | 0 <= i < |header| { out[4 + i] := header[i]; }
    forall i | 0 <= i < |body| { out[4 + |header| + i] := body[i]; }
  }

  function Clamp(i: nat, s: seq<byte>): nat {
    if i <= |s| then i else |s|
  }

  /** Reading the length throws on a short buffer; slices clamp. */
  function Unpack(buf: seq<byte>): Option<(seq<byte>, seq<byte>)> {
    if |buf| < 4 then None else
      var n := FromU32(buf[..4]);
      Some((buf[4..Clamp(4 + n, buf)], buf[Clamp(4 + n, buf)..]))
  }

  /** Framing is undone exactly when the header's length fits the 32-bit field. */
  lemma FramingRoundTrip(header: seq<byte>, body: seq<byte>)
    ensures Unpack(PackOf(header, body)) == Some((header, body)) <==> |header| < TWO_32
  {
    var buf := PackOf(header, body);
    assert buf[..4] == U32(|header|);
    U32RoundTrip(|header|);
    if |header| < TWO_32 {
      assert buf[4..4 + |header|] == header;
      assert buf[4 + |header|..] == body;
    } else {
      assert |header| % TWO_32 < |header|;
    }
  }

  // ----- sealing, over any authenticated cipher -----

  const VERSION: byte := 1
  const IV_LEN := 12

  datatype Cipher<!Key> = Cipher(
    enc: (Key, seq<byte>, seq<byte>) -> seq<byte>,
    dec: (Key, seq<byte>, seq<byte>) -> Option<seq<byte>>)

  /** Decryption inverts encryption and nothing opens under another key. */
  ghost predicate Ideal<Key(!new)>(c: Cipher<Key>) {
    && (forall k, iv, pt :: c.dec(k, iv, c.enc(k, iv, pt)) == Some(pt))
    && (forall k, k', iv, pt :: k != k' ==> c.dec(k', iv, c.enc(k, iv, pt)) == None)
  }

  // --- such a cipher exists ---

  /** The key in unary, a mark, the plaintext: the simplest ideal cipher, and no secret. */
  function PlainEnc(key: nat, iv: seq<byte>, pt: seq<byte>): seq<byte> {
    seq(key, _ => 1) + [0] + pt
  }

  function PlainDec(key: nat, iv: seq<byte>, ct: seq<byte>): Option<seq<byte>> {
    if |ct| > key && ct[..key + 1] == seq(key, _ => 1) + [0] then Some(ct[key + 1..]) else None
  }

  const PlainCipher: Cipher<nat> := Cipher(PlainEnc, PlainDec)

  lemma PlainOpens(k: nat, other: nat, iv: seq<byte>, pt: seq<byte>)
    ensures PlainDec(other, iv, PlainEnc(k, iv, pt)) == if other == k then Some(pt) else None
  {
    var ct := PlainEnc(k, iv, pt);
    if other == k {
      assert ct[..k + 1] == seq(k, _ => 1) + [0] && ct[k + 1..] == pt;
    } else if |ct| > other {
      var least := if k < other then k else other;
      assert ct[..other + 1][least] != (seq(other, _ => 1 as byte) + [0])[least];
    }
  }

  /** The hypothesis below can be met. */
  lemma IdealCipherExists()
    ensures Ideal(PlainCipher)
  {
    forall k: nat, other: nat, iv, pt
      ensures PlainCipher.dec(other, iv, PlainCipher.enc(k, iv, pt)) == if other == k then Some(pt) else None
    {
      PlainOpens(k, other, iv, pt);
    }
  }

  function Seal<Key>(c: Cipher<Key>, key: Key, iv: seq<byte>, header: seq<byte>, body: seq<byte>): seq<byte> {
    [VERSION] + iv + c.enc(key, iv, PackOf(header, body))
  }

  function Open<Key>(c: Cipher<Key>, key: Key, buf: seq<byte>): Option<(seq<byte>, seq<byte>)> {
    if |buf| == 0 || buf[0] != VERSION then None else
      match c.dec(key, buf[Clamp(1, buf)..Clamp(1 + IV_LEN, buf)], buf[Clamp(1 + IV_LEN, buf)..])
      case Some(pt) => Unpack(pt)
      case None => None
  }

  /** A sealed message opens to what was sealed under its key, and under no other. */
  lemma SealOpens<Key(!new)>(c: Cipher<Key>, key: Key, other: Key, iv: seq<byte>, header: seq<byte>, body: seq<byte>)
    requires Ideal(c) && |iv| == IV_LEN && |header| < TWO_32
    ensures Open(c, key, Seal(c, key, iv, header, body)) == Some((header, body))
    ensures other != key ==> Open(c, other, Seal(c, key, iv, header, body)) == None
  {
    var ct := c.enc(key, iv, PackOf(header, body));
    var buf := [VERSION] + iv + ct;
    assert buf[1..1 + IV_LEN] == iv && buf[1 + IV_LEN..] == ct;
    FramingRoundTrip(header, body);
  }
}
