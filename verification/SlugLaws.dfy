/** What a slug makes of each character of a name, by code point. */
module SlugLaws {
  import opened Tenants

  /** The letter or digit that stands for a character: a lower-case letter or digit for itself, a capital
      for its small letter, and the Turkish letters, small or capital, for the letter without its mark.
      Every other character stands for none. */
  function LetterFor(c: char): string {
    var n := c as int;
    if 'a' <= c <= 'z' || '0' <= c <= '9' then [c]
    else if 'A' <= c <= 'Z' then [(n + 32) as char]
    else if n == 0x11E || n == 0x11F then "g"
    else if n == 0xDC || n == 0xFC then "u"
    else if n == 0x15E || n == 0x15F then "s"
    else if n == 0x130 || n == 0x131 then "i"
    else if n == 0xD6 || n == 0xF6 then "o"
    else if n == 0xC7 || n == 0xE7 then "c"
    else if n == 0x212A then "k"
    else ""
  }

  function LettersFor(name: string): string {
    if name == "" then "" else LetterFor(name[0]) + LettersFor(name[1..])
  }

  /** The code points of white space. */
  predicate SpacePoint(n: int) {
    n in {9, 10, 11, 12, 13, 32, 0xA0, 0x1680, 0x2000, 0x2001, 0x2002, 0x2003, 0x2004, 0x2005, 0x2006, 0x2007,
          0x2008, 0x2009, 0x200A, 0x2028, 0x2029, 0x202F, 0x205F, 0x3000, 0xFEFF}
  }

  lemma SpaceIsPoint(c: char)
    ensures IsSpace(c) <==> SpacePoint(c as int)
  {
  }

  /** What is left of one character when it is folded and everything else is stripped. */
  lemma FoldedChar(c: char)
    ensures Strip(MapLetters(LowerChar(c))) == if c == '-' || SpacePoint(c as int) then [c] else LetterFor(c)
  {
    SpaceIsPoint(c);
    hide SpacePoint;
    if c == '\U{130}' {
      FoldedTwo('i', '\U{307}');
    } else {
      assert |LowerChar(c)| == 1;
      FoldedOne(LowerChar(c)[0]);
      assert LowerChar(c) == [LowerChar(c)[0]];
    }
  }

  lemma FoldedOne(d: char)
    ensures MapLetters([d]) == [Plain(d)]
    ensures Strip(MapLetters([d])) == if InSlug(Plain(d)) || IsSpace(Plain(d)) then [Plain(d)] else ""
  {
    var s := [d];
    assert s[1..] == "";
    assert MapLetters(s) == [Plain(d)] + MapLetters("");
    var t := [Plain(d)];
    assert t[1..] == "";
    assert Strip(t) == (if InSlug(t[0]) || IsSpace(t[0]) then [t[0]] else "") + Strip("");
  }

  lemma FoldedTwo(d: char, e: char)
    requires !InSlug(Plain(e)) && !IsSpace(Plain(e)) && InSlug(Plain(d))
    ensures Strip(MapLetters([d, e])) == [Plain(d)]
  {
    FoldedOne(d);
    FoldedOne(e);
    assert [d, e] == [d] + [e];
    MapAppend([d], [e]);
    StripAppend(MapLetters([d]), MapLetters([e]));
  }

  lemma LettersOfOne(c: char)
    ensures LettersOf(if c == '-' || SpacePoint(c as int) then [c] else LetterFor(c)) == LetterFor(c)
  {
    SpaceIsPoint(c);
    hide SpacePoint;
    var l := LetterFor(c);
    if l != "" {
      assert l == [l[0]] && l[1..] == "";
    }
    assert [c][1..] == "";
  }

  lemma {:induction false} FoldedLetters(name: string)
    ensures LettersOf(MapLetters(Lower(name))) == LettersFor(name)
  {
    if name != "" {
      hide LowerChar, IsLetterOrDigit;
      var f := MapLetters(LowerChar(name[0]));
      FoldedLetters(name[1..]);
      MapAppend(LowerChar(name[0]), Lower(name[1..]));
      LettersAppend(f, MapLetters(Lower(name[1..])));
      FoldedChar(name[0]);
      StripLetters(f);
      LettersOfOne(name[0]);
    }
  }

  /** Hyphens apart, a slug is what the characters of the name stand for, in order. */
  lemma SlugLetters(name: string)
    ensures LettersOf(Slug(name)) == LettersFor(name)
  {
    hide Slug;
    SlugKeepsLetters(name);
    FoldedLetters(name);
  }

  /** Between letters, each character becomes a hyphen if it is one or is white space, and otherwise the
      letter it stands for, or nothing. */
  lemma SlugOfOne(c: char)
    ensures Slug("a" + [c] + "b") == "a" + (if c == '-' || SpacePoint(c as int) then "-" else LetterFor(c)) + "b"
  {
    hide Lower, MapLetters, Strip, Collapse, Trim, LowerChar, IsSpace, LetterFor, SpacePoint;
    var a, b := "a", "b";
    FoldedEnds();
    FoldAppend(a + [c], b);
    FoldAppend(a, [c]);
    LowerOne(c);
    var f := MapLetters(LowerChar(c));
    TrimEnds(f);
    StripAppend(a + f, b);
    StripAppend(a, f);
    FoldedChar(c);
    CollapseEnds(c);
  }

  lemma FoldedEnds()
    ensures MapLetters(Lower("a")) == "a" && MapLetters(Lower("b")) == "b" && Strip("a") == "a" && Strip("b") == "b"
  {
    var a, b := "a", "b";
    assert AllInSlug(a) && AllInSlug(b);
    LowerFixed(a);
    LowerFixed(b);
    MapFixed(a);
    MapFixed(b);
    StripFixed(a);
    StripFixed(b);
  }

  lemma LowerOne(c: char)
    ensures Lower([c]) == LowerChar(c)
  {
    assert [c][1..] == "";
    assert LowerChar(c) + "" == LowerChar(c);
  }

  lemma TrimEnds(f: string)
    ensures Trim("a" + f + "b") == "a" + f + "b"
  {
  }

  /** What is left of the character, between the letters. */
  lemma CollapseEnds(c: char)
    ensures var kept := if c == '-' || SpacePoint(c as int) then [c] else LetterFor(c);
            Collapse("a" + kept + "b")
            == "a" + (if c == '-' || SpacePoint(c as int) then "-" else LetterFor(c)) + "b"
  {
    var a, b := "a", "b";
    assert AllInSlug(a) && AllInSlug(b);
    SpaceIsPoint(c);
    hide SpacePoint;
    var kept := if c == '-' || IsSpace(c) then [c] else LetterFor(c);
    if IsSpace(c) {
      assert AllSpace(kept);
      hide IsSpace, LetterFor;
      assert a + kept + b == a + (kept + b);
      CollapseWord(a, kept + b, false);
      assert !IsSpace('b') by { NoSpaceB(); }
      CollapseRun(kept, b, false);
      CollapseFixed(b);
    } else {
      KeptInSlug(c, kept);
      assert AllInSlug(a + kept + b);
      CollapseFixed(a + kept + b);
    }
  }

  lemma NoSpaceB()
    ensures !IsSpace('b')
  {
  }

  lemma KeptInSlug(c: char, kept: string)
    requires kept == if c == '-' then [c] else LetterFor(c)
    ensures AllInSlug(kept)
  {
  }
}
