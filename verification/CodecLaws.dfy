/** The formats themselves, bit by bit: what the other end, written independently, relies on. */
module CodecLaws {
  import opened Wrappers
  import opened Records
  import opened Codec

  // ----- base64, sections 4 and 5 of RFC 4648 -----

  /** Both alphabets: capital letters, small letters and figures in their order, and two
      characters more in which they differ. */
  lemma AlphabetIs(d: Digit)
    ensures StdChar(0) == 'A' && StdChar(25) == 'Z' && StdChar(26) == 'a' && StdChar(51) == 'z'
    ensures StdChar(52) == '0' && StdChar(61) == '9' && StdChar(62) == '+' && StdChar(63) == '/'
    ensures d < 62 && d !in {25, 51, 61} ==> StdChar(d + 1) as int == StdChar(d) as int + 1
    ensures ToUrl(StdChar(d)) == if d == 62 then '-' else if d == 63 then '_' else StdChar(d)
  {}

  predicate UrlSafe(c: char) {
    'A' <= c <= 'Z' || 'a' <= c <= 'z' || '0' <= c <= '9' || c == '-' || c == '_'
  }

  /** Three bytes and four digits are the same 24 bits, most significant first. */
  lemma GroupBits(a: byte, b: byte, c: byte)
    ensures var ds := Digits([a, b, c]);
      |ds| == 4 && ((ds[0] as int * 64 + ds[1] as int) * 64 + ds[2] as int) * 64 + ds[3] as int == (a as int * 256 + b as int) * 256 + c as int
  {
    assert [a, b, c][3..] == [];
    SameBits(a as int, b as int, c as int);
  }

  lemma SameBits(a: int, b: int, c: int)
    requires 0 <= a < 256 && 0 <= b < 256 && 0 <= c < 256
    ensures (((a / 4) * 64 + (a % 4 * 16 + b / 16)) * 64 + (b % 16 * 4 + c / 64)) * 64 + c % 64 == (a * 256 + b) * 256 + c
  {
    assert a == a / 4 * 4 + a % 4;
    assert b == b / 16 * 16 + b % 16;
    assert c == c / 64 * 64 + c % 64;
  }

  /** A last byte, or two, is padded with zero bits on the right. */
  lemma TailBits(a: byte, b: byte)
    ensures var ds := Digits([a]); |ds| == 2 && ds[0] as int * 64 + ds[1] as int == a as int * 16
    ensures var ds := Digits([a, b]); |ds| == 3 && (ds[0] as int * 64 + ds[1] as int) * 64 + ds[2] as int == (a as int * 256 + b as int) * 4
  {
    SameBits(a as int, 0, 0);
    SameBits(a as int, b as int, 0);
  }

  /** A text is encoded group by group. */
  lemma {:induction false} GroupByGroup(bs: seq<byte>, k: nat)
    requires 3 * k <= |bs|
    ensures Digits(bs) == Digits(bs[..3 * k]) + Digits(bs[3 * k..]) && |Digits(bs[..3 * k])| == 4 * k
  {
    if k == 0 {
      assert bs[..0] == [] && bs[0..] == bs;
    } else {
      GroupByGroup(bs[3..], k - 1);
      assert bs[3..][..3 * (k - 1)] == bs[..3 * k][3..];
      assert bs[3..][3 * (k - 1)..] == bs[3 * k..];
      assert bs[..3 * k][0] == bs[0] && bs[..3 * k][1] == bs[1] && bs[..3 * k][2] == bs[2];
    }
  }

  /** A test vector of section 10 of RFC 4648: "foobar". */
  lemma Foobar()
    ensures B64uOf([102, 111, 111, 98, 97, 114]) == "Zm9vYmFy"
    ensures B64uOf([102]) == "Zg" && B64uOf([102, 111]) == "Zm8"
  {
    B64uIsUrlText([102, 111, 111, 98, 97, 114]);
    B64uIsUrlText([102]);
    B64uIsUrlText([102, 111]);
    var bs: seq<byte> := [102, 111, 111, 98, 97, 114];
    assert bs[3..] == [98, 97, 114] && bs[3..][3..] == [];
    assert Digits(bs[3..]) == [24, 38, 5, 50];
    assert Digits(bs) == [25, 38, 61, 47] + [24, 38, 5, 50] == [25, 38, 61, 47, 24, 38, 5, 50];
    assert Digits([102]) == [25, 32] && Digits([102, 111]) == [25, 38, 60];
    TextOf([25, 38, 61, 47, 24, 38, 5, 50], "Zm9vYmFy");
    TextOf([25, 32], "Zg");
    TextOf([25, 38, 60], "Zm8");
  }

  lemma TextOf(ds: seq<Digit>, t: string)
    requires |ds| == |t| && forall i :: 0 <= i < |ds| ==> ToUrl(StdChar(ds[i])) == t[i]
    ensures UrlText(ds) == t
  {}

  /** Line breaks apart, a key the server accepts is written in the URL-safe alphabet. */
  lemma ValidPubIsUrlText(pub: string)
    requires ValidPub(pub)
    ensures forall i :: 0 <= i < |pub| ==> UrlSafe(pub[i]) || pub[i] == '\n' || pub[i] == '\r'
  {
    ReadableIsText(Drop(IsNewline, pub));
    DroppedHas(IsNewline, pub);
    forall i | 0 <= i < |pub| ensures UrlSafe(pub[i]) || pub[i] == '\n' || pub[i] == '\r' {
      if !IsNewline(pub[i]) { assert pub[i] in Drop(IsNewline, pub); }
    }
  }

  lemma {:induction false} DroppedHas(p: char -> bool, s: string)
    ensures forall c :: c in s && !p(c) ==> c in Drop(p, s)
  {
    if s != "" {
      DroppedHas(p, s[1..]);
      assert s == [s[0]] + s[1..];
    }
  }

  lemma {:induction false} ReadableIsText(s: string)
    requires ReadUrlDigits(s).Some?
    ensures forall c :: c in s ==> UrlSafe(c)
  {
    if s != "" {
      ReadableIsText(s[1..]);
      UrlDigitIs(s[0]);
      assert s == [s[0]] + s[1..];
    }
  }

  lemma UrlDigitIs(c: char)
    requires UrlDigit(c).Some?
    ensures UrlSafe(c)
  {}

  lemma {:induction false} DropMiddle(p: char -> bool, a: string, c: char, b: string)
    requires p(c)
    ensures Drop(p, a + [c] + b) == Drop(p, a + b)
  {
    if a == "" {
      assert ([c] + b)[1..] == b && [] + [c] + b == [c] + b && [] + b == b;
    } else {
      assert (a + [c] + b)[1..] == a[1..] + [c] + b && (a + b)[1..] == a[1..] + b;
      DropMiddle(p, a[1..], c, b);
    }
  }

  /** The browser's decoder skips blanks, tabs, line breaks and form feeds; the server's skips
      line breaks alone. */
  lemma BlanksAreSkipped(a: string, c: char, b: string)
    ensures c in {' ', '\t', '\n', '\r', 12 as char} ==> Atob(a + [c] + b) == Atob(a + b)
    ensures c in {'\n', '\r'} ==> RawUrlDecode(a + [c] + b) == RawUrlDecode(a + b)
  {
    if IsSpace(c) { DropMiddle(IsSpace, a, c, b); }
    if IsNewline(c) { DropMiddle(IsNewline, a, c, b); }
  }

  /** And refuses any other character outside its alphabet. */
  lemma OthersAreRefused(s: string, c: char)
    requires c in s
    ensures (c in {'-', '_'} || (!UrlSafe(c) && c !in {' ', '\t', '\n', '\r', 12 as char, '=', '+', '/'})) ==> Atob(s) == None
    ensures !UrlSafe(c) && c !in {'\n', '\r'} ==> RawUrlDecode(s) == None
  {
    DroppedHas(IsSpace, s);
    DroppedHas(IsNewline, s);
    var t := Unpad(Drop(IsSpace, s));
    if !IsSpace(c) && c != '=' && StdDigit(c).None? {
      UnpadHas(Drop(IsSpace, s), c);
      Unreadable(t, c);
    }
    if !IsNewline(c) && UrlDigit(c).None? { UrlUnreadable(Drop(IsNewline, s), c); }
  }

  lemma UnpadHas(s: string, c: char)
    requires c in s && c != '='
    ensures c in Unpad(s)
  {
    var i :| 0 <= i < |s| && s[i] == c;
    assert i < |Unpad(s)| ==> Unpad(s)[i] == c;
  }

  lemma {:induction false} Unreadable(s: string, c: char)
    requires c in s && StdDigit(c).None?
    ensures ReadDigits(s) == None
  {
    if s[0] != c {
      assert s == [s[0]] + s[1..];
      Unreadable(s[1..], c);
    }
  }

  lemma {:induction false} UrlUnreadable(s: string, c: char)
    requires c in s && UrlDigit(c).None?
    ensures ReadUrlDigits(s) == None
  {
    if s[0] != c {
      assert s == [s[0]] + s[1..];
      UrlUnreadable(s[1..], c);
    }
  }

  // ----- frames -----

  /** A packet starts with its header's length, most significant byte first. */
  lemma FrameLayout(header: seq<byte>, body: seq<byte>)
    requires |header| < 0x1_0000_0000
    ensures var out := PackOf(header, body);
      && |out| == 4 + |header| + |body|
      && ((out[0] as int * 256 + out[1] as int) * 256 + out[2] as int) * 256 + out[3] as int == |header|
      && out[4..4 + |header|] == header && out[4 + |header|..] == body
  {
    U32RoundTrip(|header|);
    assert PackOf(header, body)[..4] == U32(|header|);
  }

  /** A sealed message: a 1, the twelve bytes drawn for it, and the ciphertext. */
  lemma SealLayout<Key>(c: Cipher<Key>, key: Key, iv: seq<byte>, header: seq<byte>, body: seq<byte>)
    requires |iv| == 12
    ensures var out := Seal(c, key, iv, header, body);
      out[0] == 1 && out[1..13] == iv && out[13..] == c.enc(key, iv, PackOf(header, body))
  {}

  /** Of anything else, nothing opens. */
  lemma OtherVersions<Key>(c: Cipher<Key>, key: Key, buf: seq<byte>)
    requires buf == [] || buf[0] != 1
    ensures Open(c, key, buf) == None
  {}
}
