/** The "base64url" encoding of section 5 of RFC 4648 (Python's `base64.urlsafe_b64encode`),
    and its inverse on unpadded text, which is what the PKCE code challenge uses. */
module Base64Url {
  import opened Wrappers
  import Text

  type Byte = b: int | 0 <= b < 256
  type Sextet = s: int | 0 <= s < 64

  /** The 64 characters of the URL- and filename-safe alphabet. */
  predicate IsUrlSafeChar(ch: char) {
    ('A' <= ch <= 'Z') || ('a' <= ch <= 'z') || ('0' <= ch <= '9') || ch == '-' || ch == '_'
  }

  /** Table 2 of RFC 4648: 0-25 upper-case letters, 26-51 lower-case, 52-61 digits, then '-' and '_'. */
  function CharOf(s: Sextet): (ch: char)
    ensures IsUrlSafeChar(ch)
  {
    if s < 26 then ('A' as int + s) as char
    else if s < 52 then ('a' as int + (s - 26)) as char
    else if s < 62 then ('0' as int + (s - 52)) as char
    else if s == 62 then '-'
    else '_'
  }

  /** The value of an alphabet character; `None` for anything else, `=` included. */
  function SextetOf(ch: char): (r: Option<Sextet>)
    ensures r.Some? <==> IsUrlSafeChar(ch)
    ensures r.Some? ==> CharOf(r.value) == ch
  {
    if 'A' <= ch <= 'Z' then Some(ch as int - 'A' as int)
    else if 'a' <= ch <= 'z' then Some(ch as int - 'a' as int + 26)
    else if '0' <= ch <= '9' then Some(ch as int - '0' as int + 52)
    else if ch == '-' then Some(62)
    else if ch == '_' then Some(63)
    else None
  }

  lemma SextetOfCharOf(s: Sextet)
    ensures SextetOf(CharOf(s)) == Some(s)
  {
  }

  /** Splits bytes into 6-bit groups, most significant bits first; a final group of one
      or two bytes is filled with zero bits to 2 or 3 sextets (no padding characters). */
  function SextetsOf(b: seq<Byte>): (q: seq<Sextet>)
    ensures |q| == (4 * |b| + 2) / 3
    decreases |b|
  {
    if |b| == 0 then []
    else if |b| == 1 then [b[0] / 4, (b[0] % 4) * 16]
    else if |b| == 2 then [b[0] / 4, (b[0] % 4) * 16 + b[1] / 16, (b[1] % 16) * 4]
    else Group(b[0], b[1], b[2]) + SextetsOf(b[3..])
  }

  /** The four sextets of three bytes x y z. */
  function Group(x: Byte, y: Byte, z: Byte): (g: seq<Sextet>)
    ensures |g| == 4
  {
    [x / 4, (x % 4) * 16 + y / 16, (y % 16) * 4 + z / 64, z % 64]
  }

  // The three bytes of a group of four sextets a b c d (each byte spans two sextets).
  function FirstByte(a: Sextet, b: Sextet): Byte { a * 4 + b / 16 }
  function SecondByte(b: Sextet, c: Sextet): Byte { (b % 16) * 16 + c / 4 }
  function ThirdByte(c: Sextet, d: Sextet): Byte { (c % 4) * 64 + d }

  /** Reassembles bytes from 6-bit groups; a trailing single sextet carries no whole byte. */
  function BytesOf(q: seq<Sextet>): (r: Option<seq<Byte>>)
    ensures r.Some? <==> |q| % 4 != 1
    ensures r.Some? ==> |r.value| == 3 * |q| / 4
    decreases |q|
  {
    if |q| == 0 then Some([])
    else if |q| == 1 then None
    else if |q| == 2 then Some([FirstByte(q[0], q[1])])
    else if |q| == 3 then Some([FirstByte(q[0], q[1]), SecondByte(q[1], q[2])])
    else
      assert (|q| - 4) % 4 == |q| % 4 && 3 * |q| / 4 == 3 + 3 * (|q| - 4) / 4;
      match BytesOf(q[4..])
      case None => None
      case Some(rest) =>
        Some([FirstByte(q[0], q[1]), SecondByte(q[1], q[2]), ThirdByte(q[2], q[3])] + rest)
  }

  /** One group: the three bytes rebuilt from the four sextets of bytes x, y, z are x, y, z. */
  lemma GroupRoundTrip(x: Byte, y: Byte, z: Byte)
    ensures FirstByte(x / 4, (x % 4) * 16 + y / 16) == x
    ensures SecondByte((x % 4) * 16 + y / 16, (y % 16) * 4 + z / 64) == y
    ensures ThirdByte((y % 16) * 4 + z / 64, z % 64) == z
  {
  }

  /** Regrouping the group of three bytes gives the three bytes. */
  lemma GroupBytes(x: Byte, y: Byte, z: Byte)
    ensures FirstByte(Group(x, y, z)[0], Group(x, y, z)[1]) == x
    ensures SecondByte(Group(x, y, z)[1], Group(x, y, z)[2]) == y
    ensures ThirdByte(Group(x, y, z)[2], Group(x, y, z)[3]) == z
  {
    var g := Group(x, y, z);
    assert g[0] == x / 4 && g[1] == (x % 4) * 16 + y / 16;
    assert g[2] == (y % 16) * 4 + z / 64 && g[3] == z % 64;
    GroupRoundTrip(x, y, z);
  }

  /** Regrouping four sextets followed by more: three bytes, then the regrouping of the rest. */
  lemma BytesOfGroupThen(g: seq<Sextet>, r: seq<Sextet>)
    requires |g| == 4
    ensures BytesOf(g + r) ==
      match BytesOf(r)
      case None => None
      case Some(rest) => Some([FirstByte(g[0], g[1]), SecondByte(g[1], g[2]), ThirdByte(g[2], g[3])] + rest)
  {
    assert (g + r)[4..] == r;
  }

  /** Regrouping the sextets of any byte string gives the bytes back. */
  lemma {:induction false} BytesOfSextetsOf(b: seq<Byte>)
    ensures BytesOf(SextetsOf(b)) == Some(b)
    decreases |b|
  {
    if |b| < 3 {
      ShortRoundTrip(b);
    } else {
      BytesOfSextetsOf(b[3..]);
      FirstGroupRoundTrip(b);
      assert b == b[..3] + b[3..];
    }
  }

  lemma {:induction false} ShortRoundTrip(b: seq<Byte>)
    requires |b| < 3
    ensures BytesOf(SextetsOf(b)) == Some(b)
  {
    if |b| == 1 {
      GroupRoundTrip(b[0], 0, 0);
      assert BytesOf(SextetsOf(b)) == Some([b[0]]);
      assert b == [b[0]];
    } else if |b| == 2 {
      GroupRoundTrip(b[0], b[1], 0);
      assert BytesOf(SextetsOf(b)) == Some([b[0], b[1]]);
      assert b == [b[0], b[1]];
    }
  }

  /** The first four sextets give back the first three bytes, and regrouping goes on with the
      sextets of the rest. */
  lemma {:induction false} FirstGroupRoundTrip(b: seq<Byte>)
    requires |b| >= 3 && BytesOf(SextetsOf(b[3..])) == Some(b[3..])
    ensures BytesOf(SextetsOf(b)) == Some(b[..3] + b[3..])
  {
    var x, y, z := b[0], b[1], b[2];
    assert SextetsOf(b) == Group(x, y, z) + SextetsOf(b[3..]);
    BytesOfGroupThen(Group(x, y, z), SextetsOf(b[3..]));
    GroupBytes(x, y, z);
    assert b[..3] == [x, y, z];
  }

  /** Writes each sextet as its alphabet character. */
  function Spell(q: seq<Sextet>): (s: string)
    ensures |s| == |q|
    ensures forall i :: 0 <= i < |q| ==> s[i] == CharOf(q[i])
  {
    seq(|q|, i requires 0 <= i < |q| => CharOf(q[i]))
  }

  /** Reads each character as a sextet; fails on the first character outside the alphabet. */
  function Unspell(s: string): (r: Option<seq<Sextet>>)
    ensures r.Some? <==> forall i :: 0 <= i < |s| ==> IsUrlSafeChar(s[i])
    ensures r.Some? ==> |r.value| == |s|
    decreases |s|
  {
    if |s| == 0 then Some([])
    else
      match SextetOf(s[0])
      case None => None
      case Some(v) =>
        match Unspell(s[1..])
        case None => None
        case Some(rest) => Some([v] + rest)
  }

  lemma {:induction false} UnspellSpell(q: seq<Sextet>)
    ensures Unspell(Spell(q)) == Some(q)
    decreases |q|
  {
    if |q| > 0 {
      UnspellSpell(q[1..]);
      SextetOfCharOf(q[0]);
      assert Spell(q)[1..] == Spell(q[1..]);
      assert q == [q[0]] + q[1..];
    }
  }

  /** The `=` characters that round the encoding up to a multiple of four characters. */
  function Padding(byteCount: nat): string {
    if byteCount % 3 == 1 then "==" else if byteCount % 3 == 2 then "=" else ""
  }

  /** `base64.urlsafe_b64encode`: the alphabet characters of the sextets, then the padding. */
  function Encode(b: seq<Byte>): (s: string)
    ensures |s| == 4 * ((|b| + 2) / 3)
    ensures forall i :: 0 <= i < |s| ==> IsUrlSafeChar(s[i]) || s[i] == '='
  {
    assert (4 * |b| + 2) / 3 + |Padding(|b|)| == 4 * ((|b| + 2) / 3) by {
      var k := |b| / 3;
      assert |b| == 3 * k + |b| % 3;
    }
    Spell(SextetsOf(b)) + Padding(|b|)
  }

  /** Known answers: test vectors of section 10 of RFC 4648 for one, two and three bytes,
      one for each padding case. */
  lemma EncodeTestVectors()
    ensures Encode([0x66]) == "Zg=="
    ensures Encode([0x66, 0x6f]) == "Zm8="
    ensures Encode([0x66, 0x6f, 0x6f]) == "Zm9v"
  {
    assert SextetsOf([0x66]) == [25, 32];
    SpellsAs([25, 32], "Zg");
    assert SextetsOf([0x66, 0x6f]) == [25, 38, 60];
    SpellsAs([25, 38, 60], "Zm8");
    assert SextetsOf([0x66, 0x6f, 0x6f]) == [25, 38, 61, 47];
    SpellsAs([25, 38, 61, 47], "Zm9v");
  }

  /** Known answer of section 10 of RFC 4648 with two groups of three bytes. */
  lemma EncodeTwoGroups()
    ensures Encode([0x66, 0x6f, 0x6f, 0x62, 0x61, 0x72]) == "Zm9vYmFy"
  {
    var foobar: seq<Byte> := [0x66, 0x6f, 0x6f, 0x62, 0x61, 0x72];
    assert foobar[3..] == [0x62, 0x61, 0x72];
    assert SextetsOf(foobar[3..]) == [24, 38, 5, 50];
    assert SextetsOf(foobar) == [25, 38, 61, 47] + [24, 38, 5, 50];
    SpellsAs([25, 38, 61, 47, 24, 38, 5, 50], "Zm9vYmFy");
  }

  /** Known answers that use the two characters in which the URL-safe alphabet differs from
      the standard one: `-` for 62 and `_` for 63. */
  lemma EncodeUrlSafeVectors()
    ensures Encode([0xfb, 0xff]) == "-_8="
    ensures Encode([0xfb, 0xff, 0xbf]) == "-_-_"
  {
    assert SextetsOf([0xfb, 0xff]) == [62, 63, 60];
    SpellsAs([62, 63, 60], "-_8");
    assert SextetsOf([0xfb, 0xff, 0xbf]) == [62, 63, 62, 63];
    SpellsAs([62, 63, 62, 63], "-_-_");
  }

  /** The spelling of `q` is `s` when the characters agree one by one. */
  lemma SpellsAs(q: seq<Sextet>, s: string)
    requires |q| == |s| && forall i :: 0 <= i < |q| ==> CharOf(q[i]) == s[i]
    ensures Spell(q) == s
  {
  }

  /** `urlsafe_b64encode(b).rstrip('=')`, the form RFC 7636 (Appendix A) asks for. */
  function EncodeUnpadded(b: seq<Byte>): (s: string)
    ensures s == Spell(SextetsOf(b))
    ensures |s| == (4 * |b| + 2) / 3
  {
    RStripPaddingIsSpelling(b);
    Text.RStrip(Encode(b), '=')
  }

  /** Decoding of unpadded base64url text: every character must be in the alphabet. */
  function Decode(s: string): (r: Option<seq<Byte>>)
  {
    match Unspell(s)
    case None => None
    case Some(q) => BytesOf(q)
  }

  /** Stripping the padding leaves exactly the alphabet characters of the sextets. */
  lemma RStripPaddingIsSpelling(b: seq<Byte>)
    ensures Text.RStrip(Encode(b), '=') == Spell(SextetsOf(b))
  {
    var u := Spell(SextetsOf(b));
    assert |u| > 0 ==> IsUrlSafeChar(u[|u| - 1]);
    Text.RStripAppended(u, Padding(|b|), '=');
  }

  /** The unpadded encoding has ceil(4n/3) characters, all from the URL-safe alphabet,
      and decodes back to the bytes it came from. */
  lemma EncodeUnpaddedRoundTrip(b: seq<Byte>)
    ensures |EncodeUnpadded(b)| == (4 * |b| + 2) / 3
    ensures forall i :: 0 <= i < |EncodeUnpadded(b)| ==> IsUrlSafeChar(EncodeUnpadded(b)[i])
    ensures Decode(EncodeUnpadded(b)) == Some(b)
  {
    UnspellSpell(SextetsOf(b));
    BytesOfSextetsOf(b);
  }
}
