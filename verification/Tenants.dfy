/** The `Tenant` entity and the slug it makes of the tenant's name. */
module Tenants {
  import opened Uuids

  // ---------------------------------------------------------------- characters

  /** White space as `\s` and `trim` mean it. */
  predicate IsSpace(c: char) {
    || '\t' <= c <= '\r' || c == ' ' || c == '\U{A0}' || c == '\U{1680}' || '\U{2000}' <= c <= '\U{200A}'
    || c == '\U{2028}' || c == '\U{2029}' || c == '\U{202F}' || c == '\U{205F}' || c == '\U{3000}' || c == '\U{FEFF}'
  }

  predicate IsLetterOrDigit(c: char) {
    'a' <= c <= 'z' || '0' <= c <= '9'
  }

  predicate InSlug(c: char) {
    IsLetterOrDigit(c) || c == '-'
  }

  /** The lower case of a character, as far as a slug can tell: the lower case of any other character
      is stripped like the character itself. */
  function LowerChar(c: char): string {
    if 'A' <= c <= 'Z' then [(c as int - 'A' as int + 'a' as int) as char]
    else if c == '\U{11E}' then "\U{11F}"
    else if c == '\U{DC}' then "\U{FC}"
    else if c == '\U{15E}' then "\U{15F}"
    else if c == '\U{D6}' then "\U{F6}"
    else if c == '\U{C7}' then "\U{E7}"
    else if c == '\U{130}' then "i\U{307}"
    else if c == '\U{212A}' then "k"
    else [c]
  }

  function Plain(c: char): char {
    if c == '\U{11F}' then 'g'
    else if c == '\U{FC}' then 'u'
    else if c == '\U{15F}' then 's'
    else if c == '\U{131}' then 'i'
    else if c == '\U{F6}' then 'o'
    else if c == '\U{E7}' then 'c'
    else c
  }

  // ---------------------------------------------------------------- the pipeline

  /** `toLowerCase()` */
  function Lower(s: string): string {
    if s == "" then "" else LowerChar(s[0]) + Lower(s[1..])
  }

  /** The letter map. */
  function MapLetters(s: string): string {
    if s == "" then "" else [Plain(s[0])] + MapLetters(s[1..])
  }

  function TrimStart(s: string): string {
    if s != "" && IsSpace(s[0]) then TrimStart(s[1..]) else s
  }

  function TrimEnd(s: string): string {
    if s != "" && IsSpace(s[|s| - 1]) then TrimEnd(s[..|s| - 1]) else s
  }

  /** `trim()` */
  function Trim(s: string): string {
    TrimEnd(TrimStart(s))
  }

  /** `replace(/[^a-z0-9\s-]/g, '')` */
  function Strip(s: string): string {
    if s == "" then "" else (if InSlug(s[0]) || IsSpace(s[0]) then [s[0]] else "") + Strip(s[1..])
  }

  /** `replace(/\s+/g, '-')`: each run of white space becomes one hyphen, written where the run starts. */
  function Collapse(s: string, inRun: bool := false): string {
    if s == "" then ""
    else if IsSpace(s[0]) then (if inRun then "" else "-") + Collapse(s[1..], true)
    else [s[0]] + Collapse(s[1..], false)
  }

  function Slug(name: string): string {
    Collapse(Strip(Trim(MapLetters(Lower(name)))))
  }

  // ---------------------------------------------------------------- normal form

  predicate AllInSlug(s: string) {
    forall i :: 0 <= i < |s| ==> InSlug(s[i])
  }

  lemma TailInSlug(s: string)
    requires AllInSlug(s) && s != ""
    ensures InSlug(s[0]) && AllInSlug(s[1..])
  {
  }

  lemma {:induction false} StripAlphabet(s: string)
    ensures forall i :: 0 <= i < |Strip(s)| ==> InSlug(Strip(s)[i]) || IsSpace(Strip(s)[i])
  {
    if s != "" {
      StripAlphabet(s[1..]);
    }
  }

  lemma {:induction false} CollapseAlphabet(s: string, inRun: bool)
    requires forall i :: 0 <= i < |s| ==> InSlug(s[i]) || IsSpace(s[i])
    ensures AllInSlug(Collapse(s, inRun))
  {
    if s != "" {
      CollapseAlphabet(s[1..], IsSpace(s[0]));
    }
  }

  /** A slug has only a-z, 0-9 and hyphens, whatever the name. */
  lemma SlugAlphabet(name: string)
    ensures AllInSlug(Slug(name))
  {
    var s := Trim(MapLetters(Lower(name)));
    StripAlphabet(s);
    CollapseAlphabet(Strip(s), false);
  }

  lemma HeadAndTail(s: string)
    requires s != ""
    ensures s == [s[0]] + s[1..]
  {
  }

  lemma {:induction false} LowerFixed(s: string)
    requires AllInSlug(s)
    ensures Lower(s) == s
  {
    if s != "" {
      TailInSlug(s);
      LowerFixed(s[1..]);
      HeadAndTail(s);
    }
  }

  lemma {:induction false} MapFixed(s: string)
    requires AllInSlug(s)
    ensures MapLetters(s) == s
  {
    if s != "" {
      TailInSlug(s);
      MapFixed(s[1..]);
      HeadAndTail(s);
    }
  }

  lemma {:induction false} StripFixed(s: string)
    requires AllInSlug(s)
    ensures Strip(s) == s
  {
    if s != "" {
      TailInSlug(s);
      StripFixed(s[1..]);
      HeadAndTail(s);
    }
  }

  lemma {:induction false} CollapseFixed(s: string)
    requires AllInSlug(s)
    ensures Collapse(s, false) == s
  {
    if s != "" {
      TailInSlug(s);
      CollapseFixed(s[1..]);
      HeadAndTail(s);
    }
  }

  /** The strings that are their own slug are exactly the strings over the slug alphabet. */
  lemma SlugFixedPoints(s: string)
    ensures Slug(s) == s <==> AllInSlug(s)
  {
    SlugAlphabet(s);
    if AllInSlug(s) {
      LowerFixed(s);
      MapFixed(s);
      TrimFixed(s);
      StripFixed(s);
      CollapseFixed(s);
    }
  }

  lemma SlugIdempotent(name: string)
    ensures Slug(Slug(name)) == Slug(name)
  {
    SlugAlphabet(name);
    SlugFixedPoints(Slug(name));
  }

  // ---------------------------------------------------------------- what a slug keeps

  lemma Reassociate(a: string, b: string, c: string)
    ensures a + (b + c) == (a + b) + c
  {
  }

  /** The letters and digits of a text, in order. */
  function LettersOf(s: string): string {
    if s == "" then "" else (if IsLetterOrDigit(s[0]) then [s[0]] else "") + LettersOf(s[1..])
  }

  lemma {:induction false} LettersAppend(s: string, t: string)
    ensures LettersOf(s + t) == LettersOf(s) + LettersOf(t)
  {
    if s == "" {
      assert s + t == t;
    } else {
      assert (s + t)[1..] == s[1..] + t;
      LettersAppend(s[1..], t);
      Reassociate(if IsLetterOrDigit(s[0]) then [s[0]] else "", LettersOf(s[1..]), LettersOf(t));
    }
  }

  lemma {:induction false} TrimStartLetters(s: string)
    ensures LettersOf(TrimStart(s)) == LettersOf(s)
  {
    if s != "" && IsSpace(s[0]) {
      TrimStartLetters(s[1..]);
    }
  }

  lemma {:induction false} TrimEndLetters(s: string)
    ensures LettersOf(TrimEnd(s)) == LettersOf(s)
  {
    if s != "" && IsSpace(s[|s| - 1]) {
      var n := |s| - 1;
      TrimEndLetters(s[..n]);
      LettersAppend(s[..n], [s[n]]);
      assert s == s[..n] + [s[n]];
    }
  }

  lemma {:induction false} StripLetters(s: string)
    ensures LettersOf(Strip(s)) == LettersOf(s)
  {
    if s != "" {
      StripLetters(s[1..]);
      LettersAppend(if InSlug(s[0]) || IsSpace(s[0]) then [s[0]] else "", Strip(s[1..]));
    }
  }

  lemma {:induction false} CollapseLetters(s: string, inRun: bool)
    ensures LettersOf(Collapse(s, inRun)) == LettersOf(s)
  {
    if s != "" {
      CollapseLetters(s[1..], IsSpace(s[0]));
      LettersAppend(if IsSpace(s[0]) then (if inRun then "" else "-") else [s[0]], Collapse(s[1..], IsSpace(s[0])));
    }
  }

  /** A slug loses no letter and no digit, and changes their order nowhere: hyphens apart, it is the
      lower-cased name with the six letters mapped and everything else left out. */
  lemma SlugKeepsLetters(name: string)
    ensures LettersOf(Slug(name)) == LettersOf(MapLetters(Lower(name)))
  {
    var s := MapLetters(Lower(name));
    CollapseLetters(Strip(Trim(s)), false);
    StripLetters(Trim(s));
    TrimEndLetters(TrimStart(s));
    TrimStartLetters(s);
  }

  // ---------------------------------------------------------------- white space

  predicate AllSpace(s: string) {
    forall i :: 0 <= i < |s| ==> IsSpace(s[i])
  }

  lemma TailSpace(s: string)
    requires AllSpace(s) && s != ""
    ensures IsSpace(s[0]) && AllSpace(s[1..])
  {
  }

  lemma {:induction false} LowerAppend(s: string, t: string)
    ensures Lower(s + t) == Lower(s) + Lower(t)
  {
    if s == "" {
      assert s + t == t;
    } else {
      assert (s + t)[1..] == s[1..] + t;
      LowerAppend(s[1..], t);
      Reassociate(LowerChar(s[0]), Lower(s[1..]), Lower(t));
    }
  }

  lemma {:induction false} MapAppend(s: string, t: string)
    ensures MapLetters(s + t) == MapLetters(s) + MapLetters(t)
  {
    if s == "" {
      assert s + t == t;
    } else {
      assert (s + t)[1..] == s[1..] + t;
      MapAppend(s[1..], t);
      Reassociate([Plain(s[0])], MapLetters(s[1..]), MapLetters(t));
    }
  }

  lemma {:induction false} StripAppend(s: string, t: string)
    ensures Strip(s + t) == Strip(s) + Strip(t)
  {
    if s == "" {
      assert s + t == t;
    } else {
      assert (s + t)[1..] == s[1..] + t;
      StripAppend(s[1..], t);
      Reassociate(if InSlug(s[0]) || IsSpace(s[0]) then [s[0]] else "", Strip(s[1..]), Strip(t));
    }
  }

  lemma SpaceChar(c: char)
    requires IsSpace(c)
    ensures LowerChar(c) == [c] && Plain(c) == c
  {
  }

  lemma {:induction false} SpacesFold(r: string)
    requires AllSpace(r)
    ensures Lower(r) == r && MapLetters(r) == r && Strip(r) == r
  {
    hide IsSpace, LowerChar, Plain, InSlug;
    if r != "" {
      TailSpace(r);
      SpaceChar(r[0]);
      SpacesFold(r[1..]);
      HeadAndTail(r);
    }
  }

  lemma SpacesStay(r: string)
    requires AllSpace(r)
    ensures MapLetters(Lower(r)) == r && Strip(r) == r
  {
    hide Lower, MapLetters, Strip, AllSpace;
    SpacesFold(r);
  }

  lemma {:induction false} TrimStartSpaces(r: string, s: string)
    requires AllSpace(r)
    ensures TrimStart(r + s) == TrimStart(s)
  {
    if r == "" {
      assert r + s == s;
    } else {
      TailSpace(r);
      assert (r + s)[1..] == r[1..] + s;
      TrimStartSpaces(r[1..], s);
    }
  }

  lemma {:induction false} TrimEndSpaces(s: string, r: string)
    requires AllSpace(r)
    ensures TrimEnd(s + r) == TrimEnd(s)
  {
    if r == "" {
      assert s + r == s;
    } else {
      var n := |r| - 1;
      assert (s + r)[..|s + r| - 1] == s + r[..n];
      TrimEndSpaces(s, r[..n]);
    }
  }

  /** Trimming stops at the first character that is not white space. */
  lemma {:induction false} TrimEndStops(s: string, t: string)
    requires t != "" && !IsSpace(t[0])
    ensures TrimEnd(s + t) == s + TrimEnd(t) && TrimEnd(t) != "" && TrimEnd(t)[0] == t[0]
  {
    var n := |t| - 1;
    if IsSpace(t[n]) {
      assert (s + t)[..|s + t| - 1] == s + t[..n];
      TrimEndStops(s, t[..n]);
    }
  }

  lemma {:induction false} TrimStartStops(s: string, r: string)
    requires AllSpace(r)
    ensures TrimStart(s) != "" ==> TrimStart(s + r) == TrimStart(s) + r
    ensures TrimStart(s) == "" ==> TrimStart(s + r) == ""
  {
    if s == "" {
      assert s + r == r + "";
      TrimStartSpaces(r, "");
    } else if IsSpace(s[0]) {
      assert (s + r)[1..] == s[1..] + r;
      TrimStartStops(s[1..], r);
    }
  }

  /** Lower-casing and mapping letters leave white space and slug words alone. */
  lemma FoldAppend(s: string, t: string)
    ensures MapLetters(Lower(s + t)) == MapLetters(Lower(s)) + MapLetters(Lower(t))
  {
    LowerAppend(s, t);
    MapAppend(Lower(s), Lower(t));
  }

  lemma TrimPadded(before: string, body: string, after: string)
    requires AllSpace(before) && AllSpace(after)
    ensures Trim(before + body + after) == Trim(body)
  {
    hide TrimStart, TrimEnd, AllSpace;
    assert before + body + after == before + (body + after);
    TrimStartSpaces(before, body + after);
    TrimStartStops(body, after);
    if TrimStart(body) != "" {
      TrimEndSpaces(TrimStart(body), after);
    }
  }

  /** White space around a name does not show in its slug. */
  lemma SlugIgnoresPadding(before: string, name: string, after: string)
    requires AllSpace(before) && AllSpace(after)
    ensures Slug(before + name + after) == Slug(name)
  {
    hide Lower, MapLetters, Trim, Strip, Collapse, AllSpace;
    FoldAppend(before + name, after);
    FoldAppend(before, name);
    SpacesStay(before);
    SpacesStay(after);
    TrimPadded(before, MapLetters(Lower(name)), after);
  }

  lemma {:induction false} CollapseWord(a: string, s: string, inRun: bool)
    requires AllInSlug(a) && a != ""
    ensures Collapse(a + s, inRun) == a + Collapse(s, false)
  {
    TailInSlug(a);
    assert (a + s)[1..] == a[1..] + s;
    if a[1..] == "" {
      assert a[1..] + s == s;
    } else {
      CollapseWord(a[1..], s, false);
    }
    HeadAndTail(a);
  }

  lemma {:induction false} CollapseRun(r: string, s: string, inRun: bool)
    requires AllSpace(r) && r != "" && s != "" && !IsSpace(s[0])
    ensures Collapse(r + s, inRun) == (if inRun then "" else "-") + Collapse(s, false)
  {
    TailSpace(r);
    assert (r + s)[1..] == r[1..] + s;
    if r[1..] == "" {
      assert r[1..] + s == s;
      assert Collapse(s, true) == Collapse(s, false);
    } else {
      CollapseRun(r[1..], s, true);
    }
  }

  /** Any run of white space between words becomes exactly one hyphen: the slug of a word, white
      space and more is the slug of the word, a hyphen, and the slug of the rest. */
  lemma SlugJoinsWords(a: string, r: string, b: string)
    requires AllInSlug(MapLetters(Lower(a))) && a != "" && AllSpace(r) && r != ""
    requires b != "" && InSlug(Plain(LowerChar(b[0])[0]))
    ensures Slug(a + r + b) == Slug(a) + "-" + Slug(b)
  {
    hide Lower, MapLetters, TrimStart, TrimEnd, Strip, Collapse, AllSpace, AllInSlug;
    var word, body := MapLetters(Lower(a)), MapLetters(Lower(b));
    FirstFolded(a);
    FirstFolded(b);
    WordIsSlug(a);
    var t := TrimEnd(body);
    FoldAppend(a + r, b);
    FoldAppend(a, r);
    SpacesStay(r);
    TrimEndStops(word + r, body);
    StartsWithWord(word, r + body);
    assert word + r + body == word + (r + body);
    StripAppend(word + r, t);
    StripAppend(word, r);
    StripFixed(word);
    StripsFirst(t);
    assert word + r + Strip(t) == word + (r + Strip(t));
    CollapseWord(word, r + Strip(t), false);
    CollapseRun(r, Strip(t), false);
    NoLeadingSpace(body);
    assert word + ("-" + Collapse(Strip(t), false)) == word + "-" + Collapse(Strip(t), false);
  }

  lemma WordIsSlug(a: string)
    requires AllInSlug(MapLetters(Lower(a)))
    ensures Slug(a) == MapLetters(Lower(a))
  {
    hide Lower, MapLetters, Strip, Collapse, AllInSlug;
    var word := MapLetters(Lower(a));
    TrimFixed(word);
    StripFixed(word);
    CollapseFixed(word);
  }

  lemma TrimFixed(s: string)
    requires AllInSlug(s)
    ensures Trim(s) == s
  {
  }

  lemma FirstFolded(b: string)
    requires b != ""
    ensures MapLetters(Lower(b)) != "" && MapLetters(Lower(b))[0] == Plain(LowerChar(b[0])[0])
  {
  }

  lemma StartsWithWord(a: string, s: string)
    requires AllInSlug(a) && a != ""
    ensures TrimStart(a + s) == a + s
  {
  }

  lemma NoLeadingSpace(s: string)
    requires s != "" && !IsSpace(s[0])
    ensures TrimStart(s) == s
  {
  }

  lemma StripsFirst(t: string)
    requires t != "" && InSlug(t[0])
    ensures Strip(t) != "" && Strip(t)[0] == t[0]
  {
  }

  // ---------------------------------------------------------------- the entity

  class Tenant {
    const id: Uuid
    const name: string
    var slug: string
    var webhookSecret: string

    constructor (id: Uuid, name: string)
      ensures this.id == id && this.name == name && slug == "" && webhookSecret == ""
    {
      this.id, this.name := id, name;
      slug, webhookSecret := "", "";
    }

    /** Fills what is missing before the insert; `random` is the fresh secret. */
    method GenerateDefaults(random: string)
      modifies this
      ensures webhookSecret == if old(webhookSecret) == "" then random else old(webhookSecret)
      ensures slug == if old(slug) == "" then Slug(name) else old(slug)
      ensures old(slug) == "" ==> AllInSlug(slug) && Slug(slug) == slug
    {
      if webhookSecret == "" {
        webhookSecret := random;
      }
      if slug == "" {
        slug := Slug(name);
        SlugAlphabet(name);
        SlugIdempotent(name);
      }
    }
  }
}
