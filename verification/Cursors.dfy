/** The opaque page cursor of src/common/pagination/paginated.ts: base64url of the JSON of a
    creation time (ISO text, hence milliseconds) and a row id. */
module Cursors {
  import opened Wrappers
  import opened Calendar
  import opened Uuids
  import Base64Url
  import JsonText
  import Digits

  datatype CursorPayload = CursorPayload(createdAt: string, id: string)

  /** Malformed: the bytes are not the text of an object with both members; `JSON.parse` throws,
      or the query built from the missing member fails. */
  datatype CursorError = Malformed

  predicate IsAscii(s: string) {
    forall i :: 0 <= i < |s| ==> s[i] < 128 as char
  }

  /** UTF-8 bytes of an ASCII text. */
  function ToBytes(s: string): (b: seq<Base64Url.Byte>)
    requires IsAscii(s)
    ensures |b| == |s|
  {
    seq(|s|, i requires 0 <= i < |s| => s[i] as int)
  }

  function FromBytes(b: seq<Base64Url.Byte>): (s: string)
    ensures |s| == |b|
  {
    seq(|b|, i requires 0 <= i < |b| => b[i] as char)
  }

  function PairText(name1: string, value1: string, name2: string, value2: string): string {
    "{" + (JsonText.MemberText(name1, value1) + ("," + (JsonText.MemberText(name2, value2) + "}")))
  }

  /** `JSON.stringify` of a payload */
  function PayloadText(p: CursorPayload): string {
    PairText("createdAt", p.createdAt, "id", p.id)
  }

  lemma {:induction false} EscapeAllIsAscii(s: string)
    requires IsAscii(s)
    ensures IsAscii(JsonText.EscapeAll(s))
  {
    if s != "" {
      var c := s[0] as int;
      var digits := Digits.Render(c, 16, 4);
      forall k: nat | k < 4
        ensures digits[k] < 128 as char
      {
        Digits.RenderIsDigits(c, 16, 4, k);
      }
      assert IsAscii(JsonText.Escape(s[0]));
      EscapeAllIsAscii(s[1..]);
    }
  }

  lemma ConcatIsAscii(s: string, t: string)
    requires IsAscii(s) && IsAscii(t)
    ensures IsAscii(s + t)
  {
  }

  lemma MemberIsAscii(name: string, value: string)
    requires IsAscii(name) && IsAscii(value)
    ensures IsAscii(JsonText.MemberText(name, value))
  {
    EscapeAllIsAscii(name);
    EscapeAllIsAscii(value);
    var mark := "\"";
    assert IsAscii(mark);
    ConcatIsAscii(mark, JsonText.EscapeAll(name));
    ConcatIsAscii(mark + JsonText.EscapeAll(name), mark);
    ConcatIsAscii(mark, JsonText.EscapeAll(value));
    ConcatIsAscii(mark + JsonText.EscapeAll(value), mark);
    ConcatIsAscii(JsonText.Quote(name), ":");
    ConcatIsAscii(JsonText.Quote(name) + ":", JsonText.Quote(value));
  }

  lemma PairIsAscii(name1: string, value1: string, name2: string, value2: string)
    requires IsAscii(name1) && IsAscii(value1) && IsAscii(name2) && IsAscii(value2)
    ensures IsAscii(PairText(name1, value1, name2, value2))
  {
    MemberIsAscii(name1, value1);
    MemberIsAscii(name2, value2);
    var first, second := JsonText.MemberText(name1, value1), JsonText.MemberText(name2, value2);
    ConcatIsAscii(second, "}");
    ConcatIsAscii(",", second + "}");
    ConcatIsAscii(first, "," + (second + "}"));
    ConcatIsAscii("{", first + ("," + (second + "}")));
  }

  lemma FieldIsAscii(n: nat, width: nat, end: char)
    requires end < 128 as char
    ensures IsAscii(Field(n, width, end))
  {
    forall k: nat | k < width
      ensures Digits.Render(n, 10, width)[k] < 128 as char
    {
      Digits.RenderIsDigits(n, 10, width, k);
    }
  }

  lemma KeyIsAscii(at: Millis, id: Uuid)
    ensures IsAscii(ToIso(at)) && IsAscii(Text(id))
  {
    var c := CivilOf(at);
    FieldIsAscii(c.year, 4, '-');
    FieldIsAscii(c.month, 2, '-');
    FieldIsAscii(c.day, 2, 'T');
    FieldIsAscii(c.hour, 2, ':');
    FieldIsAscii(c.minute, 2, ':');
    FieldIsAscii(c.second, 2, '.');
    FieldIsAscii(c.milli, 3, 'Z');
    forall k: nat | k < 36
      ensures Text(id)[k] < 128 as char
    {
      TextIsPlain(id, k);
    }
  }

  lemma PayloadIsAscii(p: CursorPayload)
    requires IsAscii(p.createdAt) && IsAscii(p.id)
    ensures IsAscii(PayloadText(p))
  {
    PairIsAscii("createdAt", p.createdAt, "id", p.id);
  }

  function EncodePayload(p: CursorPayload): string
    requires IsAscii(p.createdAt) && IsAscii(p.id)
  {
    PayloadIsAscii(p);
    Base64Url.Encode(ToBytes(PayloadText(p)))
  }

  /** `encodeCursor` */
  function EncodeCursor(at: Millis, id: Uuid): (s: string)
  {
    KeyIsAscii(at, id);
    EncodePayload(CursorPayload(ToIso(at), Text(id)))
  }

  /** `decodeCursor` */
  function DecodeCursor(cursor: string): Result<CursorPayload, CursorError> {
    match JsonText.ReadObject(FromBytes(Base64Url.Decode(cursor)))
    case Some(members) =>
      if "createdAt" in members && "id" in members then Ok(CursorPayload(members["createdAt"], members["id"]))
      else Err(Malformed)
    case None => Err(Malformed)
  }

  lemma ReadLastMember(name: string, value: string, sofar: map<string, string>)
    ensures JsonText.ReadMembers(JsonText.MemberText(name, value) + "}", sofar) == Some(sofar[name := value])
  {
    var close := "}";
    JsonText.ReadMemberText(name, value, close);
    assert close[1..] == "";
  }

  lemma ReadFirstMember(name: string, value: string, rest: string, sofar: map<string, string>)
    ensures JsonText.ReadMembers(JsonText.MemberText(name, value) + ("," + rest), sofar)
         == JsonText.ReadMembers(rest, sofar[name := value])
  {
    var tail := "," + rest;
    JsonText.ReadMemberText(name, value, tail);
    assert tail[1..] == rest;
  }

  lemma ReadBraced(body: string)
    requires body != "" && body[0] == '\"'
    ensures JsonText.ReadObject("{" + body) == JsonText.ReadMembers(body, map[])
  {
    var text := "{" + body;
    assert text[1..] == body;
  }

  lemma ReadPairText(name1: string, value1: string, name2: string, value2: string)
    ensures JsonText.ReadObject(PairText(name1, value1, name2, value2)) == Some(map[name1 := value1][name2 := value2])
  {
    var rest := JsonText.MemberText(name2, value2) + "}";
    var body := JsonText.MemberText(name1, value1) + ("," + rest);
    ReadBraced(body);
    ReadFirstMember(name1, value1, rest, map[]);
    ReadLastMember(name2, value2, map[name1 := value1]);
  }

  lemma DecodeEncodePayload(p: CursorPayload)
    requires IsAscii(p.createdAt) && IsAscii(p.id)
    ensures DecodeCursor(EncodePayload(p)) == Ok(p)
  {
    hide JsonText.ReadObject, PairText, Base64Url.Encode, Base64Url.Decode;
    PayloadIsAscii(p);
    var text := PayloadText(p);
    Base64Url.DecodeEncode(ToBytes(text));
    assert FromBytes(ToBytes(text)) == text;
    var first, second := "createdAt", "id";
    ReadPairText(first, p.createdAt, second, p.id);
    assert first != second;
  }

  /** Decoding an encoded cursor gives exactly the ISO time and the id text back, for every
      instant of the years 0 to 9999 and every UUID. */
  lemma DecodeEncodeCursor(at: Millis, id: Uuid)
    ensures DecodeCursor(EncodeCursor(at, id)) == Ok(CursorPayload(ToIso(at), Text(id)))
  {
    KeyIsAscii(at, id);
    DecodeEncodePayload(CursorPayload(ToIso(at), Text(id)));
  }

  predicate Plain(s: string) {
    forall i :: 0 <= i < |s| ==> ' ' <= s[i] && s[i] != '\"' && s[i] != '\\'
  }

  lemma {:induction false} PlainStays(s: string)
    requires Plain(s)
    ensures JsonText.EscapeAll(s) == s
  {
    if s != "" {
      PlainStays(s[1..]);
      assert [s[0]] + s[1..] == s;
    }
  }

  function Quoted(s: string): string {
    "\"" + s + "\""
  }

  /** The text of an object with these two members: in this order, without spaces and without escapes. */
  function JsonOf(createdAt: string, id: string): string {
    "{" + (Quoted("createdAt") + ":" + Quoted(createdAt) + ("," + (Quoted("id") + ":" + Quoted(id) + "}")))
  }

  lemma JsonIsPayload(createdAt: string, id: string)
    requires Plain(createdAt) && Plain(id)
    ensures PayloadText(CursorPayload(createdAt, id)) == JsonOf(createdAt, id)
  {
    var first, second := "createdAt", "id";
    assert Plain(first) && Plain(second);
    PlainStays(first);
    PlainStays(second);
    PlainStays(createdAt);
    PlainStays(id);
    hide JsonText.EscapeAll, Plain;
  }

  /** A cursor is the base64url text of the JSON object with the ISO time and the id. */
  lemma CursorIs(at: Millis, id: Uuid)
    ensures var json := JsonOf(ToIso(at), Text(id));
            IsAscii(json) && EncodeCursor(at, id) == Base64Url.Encode(ToBytes(json))
  {
    hide Base64Url.Encode, JsonOf, PayloadText, Plain, ToIso, Text;
    KeyIsPlain(at, id);
    KeyIsAscii(at, id);
    PayloadIsAscii(CursorPayload(ToIso(at), Text(id)));
    JsonIsPayload(ToIso(at), Text(id));
  }

  lemma FieldIsPlain(n: nat, width: nat, end: char)
    requires Plain([end])
    ensures Plain(Field(n, width, end))
  {
    forall k: nat | k < width
      ensures var c := Digits.Render(n, 10, width)[k]; ' ' <= c && c != '\"' && c != '\\'
    {
      Digits.RenderIsDigits(n, 10, width, k);
    }
    assert Plain([end]) && [end][0] == end;
  }

  lemma KeyIsPlain(at: Millis, id: Uuid)
    ensures Plain(ToIso(at)) && Plain(Text(id))
  {
    var c := CivilOf(at);
    hide CivilOf;
    FieldIsPlain(c.year, 4, '-');
    FieldIsPlain(c.month, 2, '-');
    FieldIsPlain(c.day, 2, 'T');
    FieldIsPlain(c.hour, 2, ':');
    FieldIsPlain(c.minute, 2, ':');
    FieldIsPlain(c.second, 2, '.');
    FieldIsPlain(c.milli, 3, 'Z');
    hide Field;
    forall k: nat | k < 36
      ensures var c := Text(id)[k]; ' ' <= c && c != '\"' && c != '\\'
    {
      TextIsPlain(id, k);
    }
  }

  /** A position in the (created_at, id) order, the time in microseconds. */
  datatype SeekKey = SeekKey(at: int, id: Uuid)

  /** The position a cursor text makes the database seek to: both members must be literals the
      database can read. */
  function SeekOf(cursor: string): Result<SeekKey, CursorError> {
    match DecodeCursor(cursor)
    case Ok(p) => (
      match (FromLiteral(p.createdAt), Parse(p.id))
      case (Some(millis), Some(id)) => Ok(SeekKey(millis * 1000, id))
      case _ => Err(Malformed))
    case Err(e) => Err(e)
  }

  lemma EmptyIsNoCursor()
    ensures DecodeCursor("").Err?
  {
  }

  /** An encoded cursor seeks to its own millisecond and id, unless it is of the year 0, which the
      database refuses; and it is never the empty text, which the repository reads as "no cursor". */
  lemma SeekOfEncodeCursor(at: Millis, id: Uuid)
    ensures SeekOf(EncodeCursor(at, id)) == if at >= FIRST_MILLIS then Ok(SeekKey(at * 1000, id)) else Err(Malformed)
    ensures EncodeCursor(at, id) != ""
  {
    DecodeEncodeCursor(at, id);
    FromLiteralToIso(at);
    ParseText(id);
    EmptyIsNoCursor();
  }

  lemma EncodeCursorInjective(at: Millis, id: Uuid, at': Millis, id': Uuid)
    ensures EncodeCursor(at, id) == EncodeCursor(at', id') <==> at == at' && id == id'
  {
    hide EncodeCursor, DecodeCursor, ToIso, FromIso, Text, Parse;
    DecodeEncodeCursor(at, id);
    DecodeEncodeCursor(at', id');
    FromIsoToIso(at);
    FromIsoToIso(at');
    ParseText(id);
    ParseText(id');
  }
}
