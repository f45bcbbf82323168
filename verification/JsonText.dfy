/** The JSON text of a flat object of strings: strings as in section 7 of RFC 8259, objects as in
    section 4.  `Quote` writes what `JSON.stringify` writes, `ReadString` reads every escape that
    `JSON.parse` reads. */
module JsonText {
  import opened Wrappers
  import opened Digits

  function Escape(c: char): (s: string)
    ensures s != ""
  {
    if c == '\"' then "\\\""
    else if c == '\\' then "\\\\"
    else if c == '\U{08}' then "\\b"
    else if c == '\U{0c}' then "\\f"
    else if c == '\n' then "\\n"
    else if c == '\r' then "\\r"
    else if c == '\t' then "\\t"
    else if c < ' ' then "\\u" + Render(c as int, 16, 4)
    else [c]
  }

  function EscapeAll(s: string): string {
    if s == "" then "" else Escape(s[0]) + EscapeAll(s[1..])
  }

  /** `JSON.stringify` of a string. */
  function Quote(s: string): string {
    "\"" + EscapeAll(s) + "\""
  }

  /** The character after a backslash in the two-character escapes. */
  function SimpleEscape(c: char): Option<char> {
    if c == '\"' || c == '\\' || c == '/' then Some(c)
    else if c == 'b' then Some('\U{08}')
    else if c == 'f' then Some('\U{0c}')
    else if c == 'n' then Some('\n')
    else if c == 'r' then Some('\r')
    else if c == 't' then Some('\t')
    else None
  }

  /** One character of a string body, and how many text characters it takes; nothing at the
      closing quote or where the text is malformed. */
  function ReadChar(s: string): (r: Option<(char, nat)>)
    ensures r.Some? ==> 0 < r.value.1 <= |s|
  {
    if s == "" || s[0] == '\"' || s[0] < ' ' then None
    else if s[0] != '\\' then Some((s[0], 1))
    else if |s| < 2 then None
    else if s[1] == 'u' then
      if |s| < 6 then None
      else
        match Read(s[2..6], 16)
        case Some(code) => if code < 0xD800 || 0xE000 <= code < 0x10000 then Some((code as char, 6)) else None
        case None => None
    else
      match SimpleEscape(s[1])
      case Some(c) => Some((c, 2))
      case None => None
  }

  /** Reads a string body up to and including its closing quote; returns the value and the rest. */
  function ReadBody(s: string): (r: Option<(string, string)>)
    ensures r.Some? ==> |r.value.1| < |s|
  {
    if s != "" && s[0] == '\"' then Some(("", s[1..]))
    else
      match ReadChar(s)
      case Some((c, n)) => (
        match ReadBody(s[n..])
        case Some((body, rest)) => Some(([c] + body, rest))
        case None => None)
      case None => None
  }

  function ReadString(s: string): (r: Option<(string, string)>)
    ensures r.Some? ==> |r.value.1| < |s|
  {
    if s != "" && s[0] == '\"' then ReadBody(s[1..]) else None
  }

  lemma ReadCodeEscape(n: nat, rest: string)
    requires n < 128
    ensures ReadChar("\\u" + Render(n, 16, 4) + rest) == Some((n as char, 6))
  {
    var digits := Render(n, 16, 4);
    var s := "\\u" + digits + rest;
    assert s[2..6] == digits;
    assert Power(16, 1) == 16 && Power(16, 2) == 256 && Power(16, 3) == 4096;
    ReadRender(n, 16, 4);
  }

  predicate NeedsCode(c: char) {
    c < ' ' && c != '\U{08}' && c != '\U{0c}' && c != '\n' && c != '\r' && c != '\t'
  }

  lemma ReadEscape(c: char, rest: string)
    ensures ReadChar(Escape(c) + rest) == Some((c, |Escape(c)|))
  {
    if NeedsCode(c) {
      ReadCodeEscape(c as int, rest);
    }
  }

  lemma {:induction false} ReadEscapeAll(s: string, rest: string)
    ensures ReadBody(EscapeAll(s) + "\"" + rest) == Some((s, rest))
  {
    var text := EscapeAll(s) + "\"" + rest;
    if s == "" {
      assert text == "\"" + rest;
    } else {
      var tail := EscapeAll(s[1..]) + "\"" + rest;
      assert text == Escape(s[0]) + tail;
      ReadEscape(s[0], tail);
      ReadEscapeAll(s[1..], rest);
      assert text[|Escape(s[0])|..] == tail;
      assert text[0] == Escape(s[0])[0] != '\"';
      assert [s[0]] + s[1..] == s;
    }
  }

  /** Reading a quoted string gives the string back, whatever characters it has and whatever follows. */
  lemma ReadQuote(s: string, rest: string)
    ensures ReadString(Quote(s) + rest) == Some((s, rest))
  {
    assert (Quote(s) + rest)[1..] == EscapeAll(s) + "\"" + rest;
    ReadEscapeAll(s, rest);
  }

  function SkipSpace(s: string): (r: string)
    ensures |r| <= |s|
  {
    if s != "" && (s[0] == ' ' || s[0] == '\t' || s[0] == '\n' || s[0] == '\r') then SkipSpace(s[1..]) else s
  }

  /** Reads `"name" : "value"`. */
  function ReadMember(s: string): (r: Option<(string, string, string)>)
    ensures r.Some? ==> |r.value.2| < |s|
  {
    match ReadString(SkipSpace(s))
    case Some((name, rest)) => (
      var colon := SkipSpace(rest);
      if colon == "" || colon[0] != ':' then None
      else
        match ReadString(SkipSpace(colon[1..]))
        case Some((value, rest')) => Some((name, value, SkipSpace(rest')))
        case None => None)
    case None => None
  }

  /** Reads the members after an opening brace, to the end of the text.  A repeated name keeps its last value. */
  function ReadMembers(s: string, sofar: map<string, string>): Option<map<string, string>>
    decreases |s|
  {
    match ReadMember(s)
    case Some((name, value, rest)) =>
      if rest == "" then None
      else if rest[0] == ',' then ReadMembers(rest[1..], sofar[name := value])
      else if rest[0] == '}' && SkipSpace(rest[1..]) == "" then Some(sofar[name := value])
      else None
    case None => None
  }

  /** `JSON.parse` on the text of an object all of whose members are strings. */
  function ReadObject(s: string): Option<map<string, string>> {
    var t := SkipSpace(s);
    if t == "" || t[0] != '{' then None
    else if SkipSpace(t[1..]) != "" && SkipSpace(t[1..])[0] == '}' then
      if SkipSpace(SkipSpace(t[1..])[1..]) == "" then Some(map[]) else None
    else ReadMembers(t[1..], map[])
  }

  function MemberText(name: string, value: string): string {
    Quote(name) + ":" + Quote(value)
  }

  lemma ReadMemberText(name: string, value: string, rest: string)
    requires rest == "" || rest[0] == ',' || rest[0] == '}'
    ensures ReadMember(MemberText(name, value) + rest) == Some((name, value, rest))
  {
    hide Quote, ReadString, SkipSpace;
    var tail := Quote(value) + rest;
    var colon := ":" + tail;
    QuoteStarts(name);
    QuoteStarts(value);
    MemberTextParts(name, value, rest);
    ReadQuote(name, colon);
    assert colon[1..] == tail;
    ReadQuote(value, rest);
    NoSpace(Quote(name) + colon);
    NoSpace(colon);
    NoSpace(tail);
    if rest != "" {
      NoSpace(rest);
    }
  }

  lemma QuoteStarts(s: string)
    ensures Quote(s) != "" && Quote(s)[0] == '\"'
  {
  }

  lemma MemberTextParts(name: string, value: string, rest: string)
    ensures MemberText(name, value) + rest == Quote(name) + (":" + (Quote(value) + rest))
  {
    hide Quote;
  }

  lemma NoSpace(s: string)
    requires s != "" && s[0] != ' ' && s[0] != '\t' && s[0] != '\n' && s[0] != '\r'
    ensures SkipSpace(s) == s
  {
  }
}
