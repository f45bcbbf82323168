/** Unpadded base64url (section 5 of RFC 4648) as Node's `Buffer` writes and reads it. */
module Base64Url {
  import opened Wrappers

  type Byte = b: int | 0 <= b < 256
  type Sextet = v: int | 0 <= v < 64

  /** The alphabet A-Z a-z 0-9 - _ */
  function CharOf(v: Sextet): (c: char)
    ensures c < 128 as char
  {
    if v < 26 then 'A' + v as char
    else if v < 52 then 'a' + (v - 26) as char
    else if v < 62 then '0' + (v - 52) as char
    else if v == 62 then '-'
    else '_'
  }

  /** Both alphabets of RFC 4648 are read; any other character has no value. */
  function SextetOf(c: char): Option<Sextet> {
    if 'A' <= c <= 'Z' then Some(c as int - 'A' as int)
    else if 'a' <= c <= 'z' then Some(26 + c as int - 'a' as int)
    else if '0' <= c <= '9' then Some(52 + c as int - '0' as int)
    else if c == '-' || c == '+' then Some(62)
    else if c == '_' || c == '/' then Some(63)
    else None
  }

  /** The 6-bit groups of a byte string, the last one filled with zero bits. */
  function Split(bytes: seq<Byte>): (vs: seq<Sextet>)
    ensures bytes != [] ==> vs != []
  {
    if bytes == [] then []
    else if |bytes| == 1 then [bytes[0] / 4, bytes[0] % 4 * 16]
    else if |bytes| == 2 then [bytes[0] / 4, bytes[0] % 4 * 16 + bytes[1] / 16, bytes[1] % 16 * 4]
    else
      [bytes[0] / 4, bytes[0] % 4 * 16 + bytes[1] / 16, bytes[1] % 16 * 4 + bytes[2] / 64, bytes[2] % 64]
      + Split(bytes[3..])
  }

  /** The whole bytes contained in a sequence of 6-bit groups; left-over bits are dropped. */
  function Join(vs: seq<Sextet>): seq<Byte> {
    if |vs| < 2 then []
    else if |vs| == 2 then [Byte0(vs)]
    else if |vs| == 3 then [Byte0(vs), Byte1(vs)]
    else [Byte0(vs), Byte1(vs), vs[2] as int % 4 * 64 + vs[3]] + Join(vs[4..])
  }

  function Byte0(vs: seq<Sextet>): Byte
    requires |vs| >= 2
  {
    vs[0] as int * 4 + vs[1] / 16
  }

  function Byte1(vs: seq<Sextet>): Byte
    requires |vs| >= 3
  {
    vs[1] as int % 16 * 16 + vs[2] / 4
  }

  lemma {:induction false} JoinSplit(bytes: seq<Byte>)
    ensures Join(Split(bytes)) == bytes
  {
    if |bytes| >= 3 {
      JoinSplit(bytes[3..]);
      var vs := Split(bytes);
      assert vs[4..] == Split(bytes[3..]);
      assert Byte0(vs) == bytes[0] && Byte1(vs) == bytes[1] && vs[2] as int % 4 * 64 + vs[3] == bytes[2];
      assert bytes == [bytes[0], bytes[1], bytes[2]] + bytes[3..];
    }
  }

  function Spell(vs: seq<Sextet>): (s: string)
    ensures |s| == |vs|
  {
    seq(|vs|, i requires 0 <= i < |vs| => CharOf(vs[i]))
  }

  /** Node skips characters outside the alphabet. */
  function Unspell(s: string): seq<Sextet> {
    if s == "" then []
    else
      match SextetOf(s[0])
      case Some(v) => [v] + Unspell(s[1..])
      case None => Unspell(s[1..])
  }

  lemma {:induction false} UnspellSpell(vs: seq<Sextet>)
    ensures Unspell(Spell(vs)) == vs
  {
    if vs != [] {
      assert Spell(vs)[1..] == Spell(vs[1..]);
      assert SextetOf(CharOf(vs[0])) == Some(vs[0]);
      assert Spell(vs)[0] == CharOf(vs[0]);
      UnspellSpell(vs[1..]);
    }
  }

  /** `Buffer.toString('base64url')` */
  function Encode(bytes: seq<Byte>): (s: string)
    ensures bytes != [] ==> s != ""
  {
    Spell(Split(bytes))
  }

  /** `s` writes a number of `6 * |s|` bits, six bits a character, the high ones first. */
  predicate Writes(s: string, n: nat) {
    if s == "" then n == 0
    else
      && SextetOf(s[|s| - 1]) == Some(n % 64) && s[|s| - 1] != '+' && s[|s| - 1] != '/'
      && Writes(s[..|s| - 1], n / 64)
  }

  lemma Bits(a: Byte, b: Byte, c: Byte)
    ensures a / 4 * 64 + a % 4 * 16 == a * 16
    ensures (a / 4 * 64 + (a % 4 * 16 + b / 16)) * 64 + b % 16 * 4 == (a * 256 + b) * 4
    ensures ((a / 4 * 64 + (a % 4 * 16 + b / 16)) * 64 + (b % 16 * 4 + c / 64)) * 64 + c % 64 == (a * 256 + b) * 256 + c
  {
  }

  /** Three bytes are written as one number of 24 bits, in four characters. */
  lemma EncodeThree(a: Byte, b: Byte, c: Byte, rest: seq<Byte>) returns (s: string)
    ensures |s| == 4 && Writes(s, (a * 256 + b) * 256 + c)
    ensures Encode([a, b, c] + rest) == s + Encode(rest)
  {
    var bytes := [a, b, c] + rest;
    var vs: seq<Sextet> := [a / 4, a % 4 * 16 + b / 16, b % 16 * 4 + c / 64, c % 64];
    s := Spell(vs);
    Bits(a, b, c);
    SpellWrites4(vs);
    assert bytes[3..] == rest;
    assert Split(bytes) == vs + Split(rest);
    hide Split, Writes;
    assert Spell(vs + Split(rest)) == s + Spell(Split(rest));
  }

  /** One byte left over is filled up with zero bits to 12, and there is no padding. */
  lemma EncodeOne(a: Byte)
    ensures |Encode([a])| == 2 && Writes(Encode([a]), a * 16)
  {
    hide Writes, Spell, Split;
    SplitOne(a);
    SpellWrites2(Split([a]));
  }

  lemma SplitOne(a: Byte)
    ensures |Split([a])| == 2 && Split([a])[0] as int * 64 + Split([a])[1] == a * 16
  {
    Bits(a, 0, 0);
  }

  /** Two bytes left over are filled up with zero bits to 18. */
  lemma EncodeTwo(a: Byte, b: Byte)
    ensures |Encode([a, b])| == 3 && Writes(Encode([a, b]), (a * 256 + b) * 4)
  {
    hide Writes, Spell, Split;
    SplitTwo(a, b);
    SpellWrites3(Split([a, b]));
  }

  lemma SplitTwo(a: Byte, b: Byte)
    ensures |Split([a, b])| == 3
    ensures (Split([a, b])[0] as int * 64 + Split([a, b])[1]) * 64 + Split([a, b])[2] == (a * 256 + b) * 4
  {
    Bits(a, b, 0);
  }

  lemma CharAt(v: Sextet)
    ensures SextetOf(CharOf(v)) == Some(v) && CharOf(v) != '+' && CharOf(v) != '/'
  {
  }

  lemma SpellWrites2(vs: seq<Sextet>)
    requires |vs| == 2
    ensures Writes(Spell(vs), vs[0] as int * 64 + vs[1])
  {
    var s := Spell(vs);
    CharAt(vs[0]);
    CharAt(vs[1]);
    assert s[..1][..0] == "";
    assert Writes(s[..1][..0], 0);
    assert Writes(s[..1], vs[0]);
  }

  lemma SpellWrites3(vs: seq<Sextet>)
    requires |vs| == 3
    ensures Writes(Spell(vs), (vs[0] as int * 64 + vs[1]) * 64 + vs[2])
  {
    SpellWrites2(vs[..2]);
    CharAt(vs[2]);
    assert Spell(vs)[..2] == Spell(vs[..2]);
  }

  lemma SpellWrites4(vs: seq<Sextet>)
    requires |vs| == 4
    ensures Writes(Spell(vs), ((vs[0] as int * 64 + vs[1]) * 64 + vs[2]) * 64 + vs[3])
  {
    SpellWrites3(vs[..3]);
    CharAt(vs[3]);
    assert Spell(vs)[..3] == Spell(vs[..3]);
  }

  /** `Buffer.from(s, 'base64url')` */
  function Decode(s: string): seq<Byte> {
    Join(Unspell(s))
  }

  lemma DecodeEncode(bytes: seq<Byte>)
    ensures Decode(Encode(bytes)) == bytes
  {
    UnspellSpell(Split(bytes));
    JoinSplit(bytes);
  }
}
