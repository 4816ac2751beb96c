/** Compact JSON text for the flat objects the connection worker reports,
    written the way serde_json's `to_string` writes a `json!({...})` value:
    keys in ascending order, no whitespace, strings escaped. */
module Json {
  import opened Prelude

  datatype Value = Str(s: string) | Num(n: nat)

  /** Lower-case hexadecimal digit, as serde_json writes `\u00XX` escapes. */
  function HexDigit(d: nat): char
    requires d < 16
  {
    if d < 10 then ((('0' as int) + d) as char) else ((('a' as int) + d - 10) as char)
  }

  /** How one character appears inside a JSON string literal: quote and
      backslash are escaped; control characters below 0x20 use the short
      escapes `\b \t \n \f \r` where JSON has them and `\u00XX` otherwise;
      every other character, non-ASCII included, is written as is. */
  function EscapeChar(c: char): (r: string)
    ensures |r| > 0
    ensures r[0] == '\\' <==> (c == '"' || c == '\\' || c as int < 0x20)
  {
    if c == '"' then "\\\""
    else if c == '\\' then "\\\\"
    else if c as int == 0x08 then "\\b"
    else if c as int == 0x09 then "\\t"
    else if c as int == 0x0A then "\\n"
    else if c as int == 0x0C then "\\f"
    else if c as int == 0x0D then "\\r"
    else if c as int < 0x20 then ['\\', 'u', '0', '0', HexDigit(c as int / 16), HexDigit(c as int % 16)]
    else [c]
  }

  function Escape(s: string): string
  {
    if |s| == 0 then [] else EscapeChar(s[0]) + Escape(s[1..])
  }

  /** The value of a hexadecimal digit written by `HexDigit`. */
  function HexValue(c: char): nat
  {
    if '0' <= c <= '9' then c as int - '0' as int
    else if 'a' <= c <= 'f' then c as int - 'a' as int + 10
    else 0
  }

  /** Reads back the contents of a JSON string literal written by `Escape`. */
  function Unescape(s: string): string
    decreases |s|
  {
    if |s| == 0 then []
    else if s[0] != '\\' || |s| < 2 then [s[0]] + Unescape(s[1..])
    else if s[1] == 'u' && |s| >= 6 then
      [(HexValue(s[4]) * 16 + HexValue(s[5])) as char] + Unescape(s[6..])
    else
      var c := match s[1]
        case 'b' => 8 as char
        case 't' => 9 as char
        case 'n' => 10 as char
        case 'f' => 12 as char
        case 'r' => 13 as char
        case _ => s[1];
      [c] + Unescape(s[2..])
  }

  lemma UnescapeChar(c: char, rest: string)
    ensures Unescape(EscapeChar(c) + rest) == [c] + Unescape(rest)
  {
    var e := EscapeChar(c);
    if c as int < 0x20 && c as int !in {0x08, 0x09, 0x0A, 0x0C, 0x0D} {
      assert (e + rest)[6..] == rest;
      assert HexValue(HexDigit(c as int / 16)) * 16 + HexValue(HexDigit(c as int % 16)) == c as int;
    } else if e[0] == '\\' {
      assert (e + rest)[2..] == rest;
    } else {
      assert (e + rest)[1..] == rest;
    }
  }

  /** Escaping loses nothing: the string literal reads back as the original. */
  lemma {:induction false} EscapeRoundTrip(s: string)
    ensures Unescape(Escape(s)) == s
    decreases |s|
  {
    if |s| > 0 {
      EscapeRoundTrip(s[1..]);
      UnescapeChar(s[0], Escape(s[1..]));
      assert [s[0]] + s[1..] == s;
    }
  }

  /** A character JSON writes as is inside a string literal. */
  predicate Plain(c: char)
  {
    c as int >= 0x20 && c != '"' && c != '\\'
  }

  /** Text without quotes, backslashes or control characters is its own escape. */
  lemma {:induction false} EscapePlain(s: string)
    requires forall i :: 0 <= i < |s| ==> Plain(s[i])
    ensures Escape(s) == s
    decreases |s|
  {
    if |s| > 0 {
      EscapePlain(s[1..]);
      assert [s[0]] + s[1..] == s;
    }
  }

  function RenderValue(v: Value): string
  {
    match v
    case Str(s) => "\"" + Escape(s) + "\""
    case Num(n) => Decimal(n)
  }

  /** One `"key":value` member. */
  function Member(field: (string, Value)): string
  {
    "\"" + Escape(field.0) + "\":" + RenderValue(field.1)
  }

  function RenderMembers(fields: seq<(string, Value)>): string
  {
    if |fields| == 0 then []
    else if |fields| == 1 then Member(fields[0])
    else Member(fields[0]) + "," + RenderMembers(fields[1..])
  }

  /** A JSON object with the given members, in the given order. */
  function RenderObject(fields: seq<(string, Value)>): (r: string)
    ensures |r| >= 2 && r[0] == '{' && r[|r| - 1] == '}'
  {
    "{" + RenderMembers(fields) + "}"
  }

  /** An object with one number member whose key needs no escaping is the
      key in quotes, a colon and the number's decimal digits, in braces. */
  lemma NumberObject(key: string, n: nat)
    requires forall i :: 0 <= i < |key| ==> Plain(key[i])
    ensures RenderObject([(key, Num(n))]) == "{\"" + key + "\":" + Decimal(n) + "}"
  {
    EscapePlain(key);
  }

  lemma {:induction false} MembersMention(fields: seq<(string, Value)>, i: nat)
    requires i < |fields|
    ensures Contains(RenderMembers(fields), Member(fields[i]))
    decreases i
  {
    if |fields| > 1 {
      var m := Member(fields[0]);
      var rest := RenderMembers(fields[1..]);
      if i == 0 {
        ContainsBeforeSeparator(m, rest);
      } else {
        MembersMention(fields[1..], i - 1);
        assert fields[1..][i - 1] == fields[i];
        ContainsAfterSeparator(m, rest, Member(fields[i]));
      }
    }
  }

  lemma ContainsBeforeSeparator(m: string, rest: string)
    ensures Contains(m + "," + rest, m)
  {
    ContainsLeft(m, "," + rest);
    assert m + ("," + rest) == m + "," + rest;
  }

  lemma ContainsAfterSeparator(m: string, rest: string, sub: string)
    requires Contains(rest, sub)
    ensures Contains(m + "," + rest, sub)
  {
    ContainsRight(m + ",", rest);
    ContainsTransitive(m + "," + rest, rest, sub);
  }

  /** The text of an object shows every string member's escaped value. */
  lemma ObjectMentionsString(fields: seq<(string, Value)>, i: nat)
    requires i < |fields| && fields[i].1.Str?
    ensures Contains(RenderObject(fields), Escape(fields[i].1.s))
  {
    var e := Escape(fields[i].1.s);
    var m := Member(fields[i]);
    MembersMention(fields, i);
    ContainsLeft("{" + RenderMembers(fields), "}");
    ContainsRight("{", RenderMembers(fields));
    ContainsTransitive("{" + RenderMembers(fields), RenderMembers(fields), m);
    ContainsTransitive(RenderObject(fields), "{" + RenderMembers(fields), m);
    ContainsLeft("\"" + e, "\"");
    ContainsRight("\"", e);
    ContainsTransitive(RenderValue(fields[i].1), "\"" + e, e);
    ContainsRight("\"" + Escape(fields[i].0) + "\":", RenderValue(fields[i].1));
    ContainsTransitive(m, RenderValue(fields[i].1), e);
    ContainsTransitive(RenderObject(fields), m, e);
  }
}
