/** UUIDs: 128-bit values and their canonical text (8-4-4-4-12 lower-case hexadecimal digits). */
module Uuids {
  import opened Wrappers
  import opened Digits

  /** PostgreSQL compares `uuid` values byte by byte, which is the order of these numbers. */
  type Uuid = u: int | 0 <= u < 0x1_0000_0000_0000_0000_0000_0000_0000_0000

  /** The 32 hexadecimal digits with the four hyphens put in. */
  function Hyphenate(h: string): (s: string)
    requires |h| == 32
    ensures |s| == 36
  {
    h[..8] + "-" + h[8..12] + "-" + h[12..16] + "-" + h[16..20] + "-" + h[20..]
  }

  function Text(u: Uuid): (s: string)
    ensures |s| == 36
  {
    Hyphenate(Render(u, 16, 32))
  }

  /** The value of a UUID text, in either case of its letters; `ParseUUIDPipe` and the database
      accept exactly the texts that have one. */
  function Parse(s: string): (r: Option<Uuid>) {
    if |s| != 36 || s[8] != '-' || s[13] != '-' || s[18] != '-' || s[23] != '-' then None
    else
      match Read(s[..8] + s[9..13] + s[14..18] + s[19..23] + s[24..], 16)
      case Some(n) => Power32(); Some(n)
      case None => None
  }

  lemma Power32()
    ensures Power(16, 32) == 0x1_0000_0000_0000_0000_0000_0000_0000_0000
  {
    assert Power(16, 4) == 0x1_0000 by { assert Power(16, 2) == 0x100; }
    assert Power(16, 8) == 0x1_0000_0000 by { assert Power(16, 6) == 0x100_0000; }
    assert Power(16, 12) == 0x1_0000_0000_0000 by { assert Power(16, 10) == 0x100_0000_0000; }
    assert Power(16, 16) == 0x1_0000_0000_0000_0000 by { assert Power(16, 14) == 0x100_0000_0000_0000; }
    assert Power(16, 20) == 0x1_0000_0000_0000_0000_0000 by { assert Power(16, 18) == 0x100_0000_0000_0000_0000; }
    assert Power(16, 24) == 0x1_0000_0000_0000_0000_0000_0000 by { assert Power(16, 22) == 0x100_0000_0000_0000_0000_0000; }
    assert Power(16, 28) == 0x1_0000_0000_0000_0000_0000_0000_0000 by { assert Power(16, 26) == 0x100_0000_0000_0000_0000_0000_0000; }
    assert Power(16, 30) == 0x100_0000_0000_0000_0000_0000_0000_0000;
  }

  /** Every UUID is read back from its canonical text, so the canonical text is injective. */
  lemma ParseText(u: Uuid)
    ensures Parse(Text(u)) == Some(u)
  {
    HyphenateParts(Render(u, 16, 32));
    Power32();
    ReadRender(u, 16, 32);
  }

  lemma HyphenateParts(h: string)
    requires |h| == 32
    ensures var s := Hyphenate(h);
            && s[8] == '-' && s[13] == '-' && s[18] == '-' && s[23] == '-'
            && s[..8] + s[9..13] + s[14..18] + s[19..23] + s[24..] == h
  {
    var s := Hyphenate(h);
    assert s[..8] == h[..8] && s[9..13] == h[8..12] && s[14..18] == h[12..16] && s[19..23] == h[16..20] && s[24..] == h[20..];
    assert h[..8] + h[8..12] + h[12..16] + h[16..20] + h[20..] == h;
  }

  lemma TextIsPlain(u: Uuid, k: nat)
    requires k < 36
    ensures var c := Text(u)[k]; c == '-' || '0' <= c <= '9' || 'a' <= c <= 'f'
  {
    var h := Render(u, 16, 32);
    forall j: nat | j < 32
      ensures '0' <= h[j] <= '9' || 'a' <= h[j] <= 'f'
    {
      RenderIsDigits(u, 16, 32, j);
    }
  }

  /** An id whose last digit is a letter has a second spelling, with that letter in upper case. */
  lemma TwoSpellings(u: Uuid) returns (other: string)
    requires u % 16 >= 10
    ensures Parse(other) == Some(u) && other != Text(u)
  {
    var h := Render(u, 16, 32);
    var upper := ('A' as int + u % 16 - 10) as char;
    var h' := h[..31] + [upper];
    other := Hyphenate(h');
    Power32();
    ReadRender(u, 16, 32);
    LastDigit(u);
    assert h'[..31] == h[..31] && DigitValue(upper, 16) == DigitValue(h[31], 16);
    HyphenateParts(h');
    assert other[35] == upper && Text(u)[35] == h[31];
  }

  lemma LastDigit(u: Uuid)
    ensures Render(u, 16, 32)[31] == DigitChar(u % 16)
  {
  }
}
