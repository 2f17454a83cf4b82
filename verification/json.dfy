/**
 * The part of `JSON.stringify` the script generator relies on: a string is
 * written between double quotes with `"` and `\` and the control characters
 * escaped, and an object whose values are strings is written as
 * `{"key":"value",...}` in the order of its keys. A reader for that text is
 * given beside each writer, and the two are proved to be inverse.
 */
module Json {
  import opened Text

  /** A lower-case hexadecimal digit, as `JSON.stringify` writes them in `\u00XX`. */
  function HexChar(d: nat): (c: char)
    requires d < 16
    ensures IsHex(c)
  {
    if d < 10 then (48 + d) as char else (87 + d) as char
  }

  predicate IsHex(c: char)
  {
    '0' <= c <= '9' || 'a' <= c <= 'f' || 'A' <= c <= 'F'
  }

  function HexValue(c: char): (d: nat)
    requires IsHex(c)
    ensures d < 16
  {
    if '0' <= c <= '9' then c as int - 48
    else if 'a' <= c <= 'f' then c as int - 87
    else c as int - 55
  }

  /** The escaped form of one character inside a JSON string literal. */
  function EscapeChar(c: char): (r: string)
    ensures |r| >= 1
  {
    if c == '"' then "\\\""
    else if c == '\\' then "\\\\"
    else if c == '\U{8}' then "\\b"
    else if c == '\t' then "\\t"
    else if c == '\n' then "\\n"
    else if c == '\U{C}' then "\\f"
    else if c == '\r' then "\\r"
    else if c < ' ' then "\\u00" + [HexChar(c as int / 16), HexChar(c as int % 16)]
    else [c]
  }

  /** The escaped body of a JSON string literal. */
  function Escape(s: string): (r: string)
    ensures |r| >= |s|
  {
    if s == [] then [] else EscapeChar(s[0]) + Escape(s[1..])
  }

  /** `JSON.stringify(s)` for a string `s`. */
  function Quote(s: string): string
  {
    "\"" + Escape(s) + "\""
  }

  /** Prepends a character to the string of a parse result. */
  function Cons(c: char, p: Option<(string, string)>): Option<(string, string)>
  {
    match p
    case None => None
    case Some((s, rest)) => Some(([c] + s, rest))
  }

  /**
   * Reads the body of a JSON string literal up to and including its closing
   * quote: the decoded text and what follows the quote.
   */
  function ParseStringBody(t: string): (r: Option<(string, string)>)
    ensures r.Some? ==> |r.value.1| < |t|
    decreases |t|
  {
    if t == [] then None
    else if t[0] == '"' then Some(([], t[1..]))
    else if t[0] == '\\' then
      if |t| < 2 then None
      else if t[1] == '"' then Cons('"', ParseStringBody(t[2..]))
      else if t[1] == '\\' then Cons('\\', ParseStringBody(t[2..]))
      else if t[1] == 'b' then Cons('\U{8}', ParseStringBody(t[2..]))
      else if t[1] == 't' then Cons('\t', ParseStringBody(t[2..]))
      else if t[1] == 'n' then Cons('\n', ParseStringBody(t[2..]))
      else if t[1] == 'f' then Cons('\U{C}', ParseStringBody(t[2..]))
      else if t[1] == 'r' then Cons('\r', ParseStringBody(t[2..]))
      else if t[1] == 'u' && |t| >= 6 && t[2] == '0' && t[3] == '0' && IsHex(t[4]) && IsHex(t[5]) then
        Cons((16 * HexValue(t[4]) + HexValue(t[5])) as char, ParseStringBody(t[6..]))
      else None
    else if t[0] < ' ' then None
    else Cons(t[0], ParseStringBody(t[1..]))
  }

  /** Reads one escaped character back. */
  lemma ParseEscapeChar(c: char, u: string)
    ensures ParseStringBody(EscapeChar(c) + u) == Cons(c, ParseStringBody(u))
  {
    if c == '"' || c == '\\' || c == '\U{8}' || c == '\t' || c == '\n' || c == '\U{C}' || c == '\r' {
      ParseShortEscape(c, u);
    } else if c < ' ' {
      ParseUnicodeEscape(c, u);
    } else {
      assert (EscapeChar(c) + u)[1..] == u;
    }
  }

  /** A character written as a backslash and a letter or itself reads back. */
  lemma ParseShortEscape(c: char, u: string)
    requires c == '"' || c == '\\' || c == '\U{8}' || c == '\t' || c == '\n' || c == '\U{C}' || c == '\r'
    ensures ParseStringBody(EscapeChar(c) + u) == Cons(c, ParseStringBody(u))
  {
    assert (EscapeChar(c) + u)[2..] == u;
  }

  /** Any other control character, written as `\u00` and two hexadecimal digits, reads back. */
  lemma ParseUnicodeEscape(c: char, u: string)
    requires c < ' ' && !(c == '\U{8}' || c == '\t' || c == '\n' || c == '\U{C}' || c == '\r')
    ensures ParseStringBody(EscapeChar(c) + u) == Cons(c, ParseStringBody(u))
  {
    var hi, lo := c as int / 16, c as int % 16;
    assert (EscapeChar(c) + u)[6..] == u;
    assert HexValue(HexChar(hi)) == hi && HexValue(HexChar(lo)) == lo;
    assert (16 * hi + lo) as char == c;
  }

  /** The body of a quoted string reads back as the string, leaving what follows the quote. */
  lemma {:induction false} ParseEscape(s: string, rest: string)
    ensures ParseStringBody(Escape(s) + "\"" + rest) == Some((s, rest))
  {
    if s == [] {
      assert (Escape(s) + "\"" + rest)[1..] == rest;
    } else {
      ParseEscape(s[1..], rest);
      assert Escape(s) + "\"" + rest == EscapeChar(s[0]) + (Escape(s[1..]) + "\"" + rest);
      ParseEscapeChar(s[0], Escape(s[1..]) + "\"" + rest);
      assert [s[0]] + s[1..] == s;
    }
  }

  /** A quoted string reads back as the string itself. */
  lemma QuoteRoundTrip(s: string, rest: string)
    ensures |Quote(s) + rest| > 0 && (Quote(s) + rest)[0] == '"'
    ensures ParseStringBody((Quote(s) + rest)[1..]) == Some((s, rest))
  {
    assert (Quote(s) + rest)[1..] == Escape(s) + "\"" + rest;
    ParseEscape(s, rest);
  }

  /** `"key":"value"` for one member of an object. */
  function Member(p: (string, string)): string
  {
    Quote(p.0) + ":" + Quote(p.1)
  }

  /** The members of an object, separated by commas. */
  function Members(h: seq<(string, string)>): string
  {
    if h == [] then ""
    else if |h| == 1 then Member(h[0])
    else Member(h[0]) + "," + Members(h[1..])
  }

  /** `JSON.stringify(h)` for an object whose values are all strings, keys in order. */
  function Stringify(h: seq<(string, string)>): (r: string)
    ensures |r| >= 2 && r[0] == '{' && r[|r| - 1] == '}'
    ensures r == "{}" <==> h == []
  {
    assert h != [] ==> Member(h[0])[0] == '"' && Members(h)[0] == Member(h[0])[0];
    "{" + Members(h) + "}"
  }

  /** Reads one `"key":"value"` member: the member and what follows it. */
  function ReadMember(t: string): (r: Option<((string, string), string)>)
    ensures r.Some? ==> |r.value.1| < |t|
  {
    if |t| == 0 || t[0] != '"' then None
    else match ParseStringBody(t[1..])
      case None => None
      case Some((k, r1)) =>
        if |r1| < 2 || r1[0] != ':' || r1[1] != '"' then None
        else match ParseStringBody(r1[2..])
          case None => None
          case Some((v, r2)) => Some(((k, v), r2))
  }

  /** Reads the members of a non-empty object, starting at a member's opening quote and ending at `}`. */
  function ParseMembers(t: string): Option<seq<(string, string)>>
    decreases |t|, 0
  {
    match ReadMember(t)
    case None => None
    case Some((p, tail)) => AfterMember(p, tail)
  }

  /** What the reader does once it has read one member and sees `tail` after it. */
  function AfterMember(p: (string, string), tail: string): Option<seq<(string, string)>>
    decreases |tail|, 1
  {
    if tail == "}" then Some([p])
    else if |tail| > 0 && tail[0] == ',' then
      match ParseMembers(tail[1..])
      case None => None
      case Some(more) => Some([p] + more)
    else None
  }

  /** Reads an object whose values are all strings. */
  function ParseObject(t: string): Option<seq<(string, string)>>
  {
    if |t| < 2 || t[0] != '{' then None
    else if t[1..] == "}" then Some([])
    else ParseMembers(t[1..])
  }

  /** One written member is read back, leaving what follows it. */
  lemma ReadMemberRoundTrip(p: (string, string), tail: string)
    ensures ReadMember(Member(p) + tail) == Some((p, tail))
  {
    ReadKey(p, tail);
    ReadValue(p, tail);
  }

  /** The key of a written member is read back up to its closing quote. */
  lemma ReadKey(p: (string, string), tail: string)
    ensures var t := Member(p) + tail;
      |t| > 0 && t[0] == '"' && ParseStringBody(t[1..]) == Some((p.0, ":" + Quote(p.1) + tail))
  {
    var r1 := ":" + Quote(p.1) + tail;
    assert Member(p) + tail == Quote(p.0) + r1;
    QuoteRoundTrip(p.0, r1);
  }

  /** After the key, the colon and the value of a written member are read back. */
  lemma ReadValue(p: (string, string), tail: string)
    ensures var r1 := ":" + Quote(p.1) + tail;
      |r1| >= 2 && r1[0] == ':' && r1[1] == '"' && ParseStringBody(r1[2..]) == Some((p.1, tail))
  {
    var r1 := ":" + Quote(p.1) + tail;
    QuoteRoundTrip(p.1, tail);
    assert r1[2..] == (Quote(p.1) + tail)[1..];
  }

  /** One written member is read back, and reading goes on with what follows it. */
  lemma ParseMember(p: (string, string), tail: string)
    ensures ParseMembers(Member(p) + tail) == AfterMember(p, tail)
  {
    ReadMemberRoundTrip(p, tail);
  }

  /** The members after a comma are read back after the first one. */
  lemma ParseMembersCons(p: (string, string), h: seq<(string, string)>)
    requires ParseMembers(Members(h) + "}") == Some(h)
    ensures ParseMembers(Member(p) + ("," + (Members(h) + "}"))) == Some([p] + h)
  {
    var rest := Members(h) + "}";
    ParseMember(p, "," + rest);
    assert ("," + rest)[1..] == rest;
  }

  /** The text of two or more members, closed: the first member, a comma, and the others, closed. */
  lemma MembersCons(h: seq<(string, string)>)
    requires |h| > 1
    ensures Members(h) + "}" == Member(h[0]) + ("," + (Members(h[1..]) + "}"))
  {
    var a, b := Member(h[0]), Members(h[1..]);
    assert Members(h) == a + "," + b;
    AppendAssoc(a + ",", b, "}");
    AppendAssoc(a, ",", b + "}");
  }

  /** The members of an object are read back from their text, in order. */
  lemma {:induction false} ParseMembersRoundTrip(h: seq<(string, string)>)
    requires h != []
    ensures ParseMembers(Members(h) + "}") == Some(h)
  {
    assert [h[0]] + h[1..] == h;
    if |h| == 1 {
      assert h == [h[0]];
      ParseMember(h[0], "}");
    } else {
      ParseMembersRoundTrip(h[1..]);
      ParseMembersCons(h[0], h[1..]);
      MembersCons(h);
    }
  }

  /** Stringifying an object of strings loses nothing: it reads back as the same members in the same order. */
  lemma StringifyRoundTrip(h: seq<(string, string)>)
    ensures ParseObject(Stringify(h)) == Some(h)
  {
    var t := Stringify(h);
    if h != [] {
      ParseMembersRoundTrip(h);
      assert t[1..] == Members(h) + "}";
      assert Members(h) != [];
    } else {
      assert t[1..] == "}";
    }
  }
}
