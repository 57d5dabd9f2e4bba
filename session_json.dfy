/** The user record the browser keeps under the "user" key, and the JSON text
    it is kept as: `JSON.stringify` of the record, with JSON string escaping,
    and the `JSON.parse` that reads that text back. */
module SessionJson {

  import opened Common

  /** The client's `User`: `isHost` may be missing. */
  datatype SessionUser = SessionUser(id: string, name: string, isHost: Option<bool>)

  // -----------------------------------------------------------------------
  // String escaping
  // -----------------------------------------------------------------------

  function HexDigit(d: nat): (c: char)
    requires d < 16
  {
    if d < 10 then ('0' as int + d) as char else ('a' as int + d - 10) as char
  }

  predicate IsHex(c: char) {
    '0' <= c <= '9' || 'a' <= c <= 'f' || 'A' <= c <= 'F'
  }

  function HexValue(c: char): (v: nat)
    requires IsHex(c)
    ensures v < 16
  {
    if '0' <= c <= '9' then c as int - '0' as int
    else if 'a' <= c <= 'f' then c as int - 'a' as int + 10
    else c as int - 'A' as int + 10
  }

  lemma HexRoundTrip(d: nat)
    requires d < 16
    ensures IsHex(HexDigit(d)) && HexValue(HexDigit(d)) == d
  {
  }

  const BACKSPACE: char := '\U{0008}'
  const FORM_FEED: char := '\U{000C}'

  /** How `JSON.stringify` writes one character inside a string: the quote,
      the backslash and the control characters are escaped, the short forms
      where JSON has one and `\u00xx` otherwise. */
  function EscapeChar(c: char): string {
    if c == '"' then ['\\', '"']
    else if c == '\\' then ['\\', '\\']
    else if c == BACKSPACE then ['\\', 'b']
    else if c == FORM_FEED then ['\\', 'f']
    else if c == '\n' then ['\\', 'n']
    else if c == '\r' then ['\\', 'r']
    else if c == '\t' then ['\\', 't']
    else if c < ' ' then ['\\', 'u', '0', '0', HexDigit(c as int / 16), HexDigit(c as int % 16)]
    else [c]
  }

  function Escape(s: string): string {
    if |s| == 0 then "" else EscapeChar(s[0]) + Escape(s[1..])
  }

  /** The character an escape stands for, and how many characters after the
      backslash it takes. */
  function Unescape(t: string): (r: Option<(char, nat)>)
    ensures r.Some? ==> 1 <= r.value.1 <= |t|
  {
    if |t| == 0 then None
    else if t[0] == '"' then Some(('"', 1))
    else if t[0] == '\\' then Some(('\\', 1))
    else if t[0] == '/' then Some(('/', 1))
    else if t[0] == 'b' then Some((BACKSPACE, 1))
    else if t[0] == 'f' then Some((FORM_FEED, 1))
    else if t[0] == 'n' then Some(('\n', 1))
    else if t[0] == 'r' then Some(('\r', 1))
    else if t[0] == 't' then Some(('\t', 1))
    else if t[0] == 'u' && |t| >= 5 && IsHex(t[1]) && IsHex(t[2]) && IsHex(t[3]) && IsHex(t[4]) then
      var v := HexValue(t[1]) * 4096 + HexValue(t[2]) * 256 + HexValue(t[3]) * 16 + HexValue(t[4]);
      // A lone surrogate is not a character here.
      if 0xD800 <= v < 0xE000 then None else Some((v as char, 5))
    else None
  }

  /** Reads the body of a JSON string up to its closing quote: the text it
      denotes and what follows the quote. */
  function ReadString(t: string): (r: Option<(string, string)>)
    decreases |t|
  {
    if |t| == 0 then None
    else if t[0] == '"' then Some(("", t[1..]))
    else if t[0] == '\\' then
      match Unescape(t[1..])
      case None => None
      case Some((c, k)) => Prepend(c, ReadString(t[1 + k..]))
    else if t[0] < ' ' then None
    else Prepend(t[0], ReadString(t[1..]))
  }

  function Prepend(c: char, r: Option<(string, string)>): Option<(string, string)> {
    match r
    case None => None
    case Some((s, rest)) => Some(([c] + s, rest))
  }

  /** What follows a string is the end of the text it was read from. */
  lemma {:induction false} ReadStringSuffix(t: string)
    ensures var r := ReadString(t);
      r.Some? ==> |r.value.1| < |t| && r.value.1 == t[|t| - |r.value.1|..]
    decreases |t|
  {
    if |t| > 0 && t[0] != '"' {
      if t[0] == '\\' {
        match Unescape(t[1..])
        case None =>
        case Some((c, k)) => ReadStringSuffix(t[1 + k..]);
      } else if t[0] >= ' ' {
        ReadStringSuffix(t[1..]);
      }
    }
  }

  lemma {:induction false} ReadEscapedChar(c: char, t: string)
    ensures ReadString(EscapeChar(c) + t) == Prepend(c, ReadString(t))
  {
    var e := EscapeChar(c);
    var all := e + t;
    if c == '"' || c == '\\' || c == BACKSPACE || c == FORM_FEED || c == '\n' || c == '\r' || c == '\t' {
      assert all[0] == '\\' && all[1..] == [e[1]] + t;
      assert all[1 + 1..] == t;
    } else if c < ' ' {
      var hi, lo := c as int / 16, c as int % 16;
      HexRoundTrip(hi);
      HexRoundTrip(lo);
      assert all[0] == '\\' && all[1..] == ['u', '0', '0', HexDigit(hi), HexDigit(lo)] + t;
      assert HexValue('0') == 0;
      assert hi * 16 + lo == c as int;
      assert all[1 + 5..] == t;
    } else {
      assert all[0] == c && all[1..] == t;
    }
  }

  /** Reading an escaped string followed by its closing quote gives the
      string and the rest of the text back. */
  lemma {:induction false} ReadEscape(s: string, rest: string)
    ensures ReadString(Escape(s) + "\"" + rest) == Some((s, rest))
  {
    if |s| == 0 {
      assert Escape(s) + "\"" + rest == ['"'] + rest;
    } else {
      ReadEscape(s[1..], rest);
      assert Escape(s) + "\"" + rest == EscapeChar(s[0]) + (Escape(s[1..]) + "\"" + rest);
      ReadEscapedChar(s[0], Escape(s[1..]) + "\"" + rest);
      assert [s[0]] + s[1..] == s;
    }
  }

  // -----------------------------------------------------------------------
  // The record
  // -----------------------------------------------------------------------

  const ID_OPEN: string := "{\"id\":\""
  const NAME_OPEN: string := ",\"name\":\""
  const HOST_TRUE: string := ",\"isHost\":true}"
  const HOST_FALSE: string := ",\"isHost\":false}"
  const CLOSE: string := "}"

  /** A missing `isHost` is left out of the text. */
  function HostTail(isHost: Option<bool>): string {
    match isHost
    case None => CLOSE
    case Some(b) => if b then HOST_TRUE else HOST_FALSE
  }

  /** `JSON.stringify(user)`: an object text that opens with the id. */
  function Stringify(u: SessionUser): (text: string)
    ensures ID_OPEN <= text && text[|text| - 1] == '}'
  {
    ID_OPEN + (Escape(u.id) + "\"" + (NAME_OPEN + (Escape(u.name) + "\"" + HostTail(u.isHost))))
  }

  /** The text after `prefix`, if the text starts with it. */
  function Expect(prefix: string, t: string): Option<string> {
    if prefix <= t then Some(t[|prefix|..]) else None
  }

  lemma ExpectPrefix(prefix: string, t: string)
    ensures Expect(prefix, prefix + t) == Some(t)
  {
    assert prefix <= prefix + t;
    assert (prefix + t)[|prefix|..] == t;
  }

  /** `JSON.parse(text)` for a user record written as `Stringify` writes it;
      `None` where the parse would throw or would not give such a record. */
  function Parse(text: string): (r: Option<SessionUser>)
    ensures r.Some? ==> ID_OPEN <= text && text[|text| - 1] == '}'
  {
    match Expect(ID_OPEN, text)
    case None => None
    case Some(t1) =>
      ReadStringSuffix(t1);
      match ReadString(t1)
      case None => None
      case Some((id, t2)) =>
        match Expect(NAME_OPEN, t2)
        case None => None
        case Some(t3) =>
          ReadStringSuffix(t3);
          match ReadString(t3)
          case None => None
          case Some((name, t4)) =>
            if t4 == CLOSE then Some(SessionUser(id, name, None))
            else if t4 == HOST_TRUE then Some(SessionUser(id, name, Some(true)))
            else if t4 == HOST_FALSE then Some(SessionUser(id, name, Some(false)))
            else None
  }

  lemma ParseParts(text: string, t1: string, t2: string, t3: string, id: string, name: string, isHost: Option<bool>)
    requires Expect(ID_OPEN, text) == Some(t1)
    requires ReadString(t1) == Some((id, t2))
    requires Expect(NAME_OPEN, t2) == Some(t3)
    requires ReadString(t3) == Some((name, HostTail(isHost)))
    ensures Parse(text) == Some(SessionUser(id, name, isHost))
  {
    assert |CLOSE| == 1 && |HOST_TRUE| == 15 && |HOST_FALSE| == 16;
  }

  /** What is stored is read back as the same user, whatever characters the
      id and the name hold. */
  lemma {:induction false} ParseStringify(u: SessionUser)
    ensures Parse(Stringify(u)) == Some(u)
  {
    var tail := HostTail(u.isHost);
    var t3 := Escape(u.name) + "\"" + tail;
    var t2 := NAME_OPEN + t3;
    var t1 := Escape(u.id) + "\"" + t2;
    ExpectPrefix(ID_OPEN, t1);
    ReadEscape(u.id, t2);
    ExpectPrefix(NAME_OPEN, t3);
    ReadEscape(u.name, tail);
    ParseParts(Stringify(u), t1, t2, t3, u.id, u.name, u.isHost);
  }
}
