/** `JSON.stringify` of a one-key object whose value is a string (ECMA-262, JSON.stringify and
    QuoteJSONString), and a reader for the text it produces. */
module Json {
  import opened Outcomes

  /** Lower-case hexadecimal digit, as `UnicodeEscape` writes it. */
  function HexDigit(d: nat): char
    requires d < 16
  {
    "0123456789abcdef"[d]
  }

  function HexValue(c: char): (r: Option<nat>)
    ensures r.Some? ==> r.value < 16
  {
    if '0' <= c <= '9' then Some(c as int - '0' as int)
    else if 'a' <= c <= 'f' then Some(c as int - 'a' as int + 10)
    else if 'A' <= c <= 'F' then Some(c as int - 'A' as int + 10)
    else None
  }

  /** The text QuoteJSONString writes for one character. */
  function EscapeChar(c: char): (r: string)
    ensures |r| >= 1
  {
    var n := c as int;
    if n == 0x08 then "\\b"
    else if n == 0x09 then "\\t"
    else if n == 0x0A then "\\n"
    else if n == 0x0C then "\\f"
    else if n == 0x0D then "\\r"
    else if c == '"' then "\\\""
    else if c == '\\' then "\\\\"
    else if n < 0x20 then "\\u00" + [HexDigit(n / 16), HexDigit(n % 16)]
    else [c]
  }

  /** The characters of a string literal between its quotes. */
  function Escape(s: string): string {
    if s == [] then [] else EscapeChar(s[0]) + Escape(s[1..])
  }

  /** `JSON.stringify(s)` for a string `s`. */
  function Quote(s: string): string {
    "\"" + Escape(s) + "\""
  }

  /** `JSON.stringify({ [key]: value })` with a string value: no white space between tokens. */
  function Entry(key: string, value: string): string {
    "{" + Quote(key) + ":" + Quote(value) + "}"
  }

  /** The character an escape sequence stands for (the text after the backslash), and how many
      characters of that text it takes. */
  function Unescape(t: string): (r: Option<(char, nat)>)
    ensures r.Some? ==> 1 <= r.value.1 <= |t|
  {
    if t == [] then None
    else if t[0] == '"' then Some(('"', 1))
    else if t[0] == '\\' then Some(('\\', 1))
    else if t[0] == '/' then Some(('/', 1))
    else if t[0] == 'b' then Some((0x08 as char, 1))
    else if t[0] == 't' then Some((0x09 as char, 1))
    else if t[0] == 'n' then Some((0x0A as char, 1))
    else if t[0] == 'f' then Some((0x0C as char, 1))
    else if t[0] == 'r' then Some((0x0D as char, 1))
    else if t[0] == 'u' && |t| >= 5 then
      match (HexValue(t[1]), HexValue(t[2]), HexValue(t[3]), HexValue(t[4]))
      case (Some(a), Some(b), Some(c), Some(d)) =>
        var n := ((a * 16 + b) * 16 + c) * 16 + d;
        if n < 0xD800 || 0xE000 <= n then Some((n as char, 5)) else None
      case _ => None
    else None
  }

  /** Reads the rest of a string literal whose opening quote has been consumed: the characters it
      denotes, and the text after its closing quote. */
  function ReadString(t: string): Option<(string, string)>
    decreases |t|
  {
    if t == [] then None
    else if t[0] == '"' then Some(([], t[1..]))
    else if (t[0] as int) < 0x20 then None
    else
      var step := if t[0] == '\\' then Unescape(t[1..]) else Some((t[0], 0));
      match step
      case None => None
      case Some((c, used)) =>
        match ReadString(t[1 + used..])
        case None => None
        case Some((s, rest)) => Some(([c] + s, rest))
  }

  /** Reads a one-key object `{"key":"value"}` written without white space. */
  function ParseEntry(t: string): Option<(string, string)> {
    if |t| < 2 || t[0] != '{' || t[1] != '"' then None
    else
      match ReadString(t[2..])
      case None => None
      case Some((key, r1)) =>
        if |r1| < 2 || r1[0] != ':' || r1[1] != '"' then None
        else
          match ReadString(r1[2..])
          case None => None
          case Some((value, r2)) => if r2 == "}" then Some((key, value)) else None
  }

  lemma ReadEscapedChar(c: char, tail: string)
    ensures ReadString(EscapeChar(c) + tail) ==
            match ReadString(tail)
            case None => None
            case Some((s, rest)) => Some(([c] + s, rest))
  {
    var e := EscapeChar(c);
    var t := e + tail;
    var n := c as int;
    if n < 0x20 && n != 0x08 && n != 0x09 && n != 0x0A && n != 0x0C && n != 0x0D {
      assert e == ['\\', 'u', '0', '0', HexDigit(n / 16), HexDigit(n % 16)];
      assert t[1..] == ['u', '0', '0', HexDigit(n / 16), HexDigit(n % 16)] + tail;
      assert HexValue(HexDigit(n / 16)) == Some(n / 16);
      assert HexValue(HexDigit(n % 16)) == Some(n % 16);
      assert Unescape(t[1..]) == Some((c, 5));
      assert t[6..] == tail;
    } else if e == [c] {
      assert t[1..] == tail;
    } else {
      assert |e| == 2 && e[0] == '\\';
      assert t[1..] == [e[1]] + tail;
      assert Unescape(t[1..]) == Some((c, 1));
      assert t[2..] == tail;
    }
  }

  /** Reading back an escaped string stops exactly at its closing quote and yields the string. */
  lemma {:induction false} ReadQuoted(s: string, rest: string)
    ensures ReadString(Escape(s) + "\"" + rest) == Some((s, rest))
  {
    if s == [] {
      assert Escape(s) + "\"" + rest == "\"" + rest;
    } else {
      ReadQuoted(s[1..], rest);
      assert Escape(s) + "\"" + rest == EscapeChar(s[0]) + (Escape(s[1..]) + "\"" + rest);
      ReadEscapedChar(s[0], Escape(s[1..]) + "\"" + rest);
      assert [s[0]] + s[1..] == s;
    }
  }

  /** The fragment `JSON.stringify` writes for a sample parses back to its key and its sample. */
  lemma EntryRoundTrip(key: string, value: string)
    ensures ParseEntry(Entry(key, value)) == Some((key, value))
  {
    var t := Entry(key, value);
    var r1 := ":" + Quote(value) + "}";
    EntryAfterBrace(key, value);
    ReadQuoted(key, r1);
    ValueAfterColon(value);
    ReadQuoted(value, "}");
  }

  lemma EntryAfterBrace(key: string, value: string)
    ensures |Entry(key, value)| >= 2 && Entry(key, value)[0] == '{' && Entry(key, value)[1] == '"'
    ensures Entry(key, value)[2..] == Escape(key) + "\"" + (":" + Quote(value) + "}")
  {
    var tail := ":" + Quote(value) + "}";
    var body := Escape(key) + "\"" + tail;
    assert Entry(key, value) == ['{', '"'] + body;
  }

  lemma ValueAfterColon(value: string)
    ensures (":" + Quote(value) + "}")[2..] == Escape(value) + "\"" + "}"
  {
  }

  lemma EscapeCharHasNoLineBreak(c: char)
    ensures '\n' !in EscapeChar(c) && '\r' !in EscapeChar(c)
  {
    var n := c as int;
    if n < 0x20 && n != 0x08 && n != 0x09 && n != 0x0A && n != 0x0C && n != 0x0D {
      assert EscapeChar(c) == ['\\', 'u', '0', '0', HexDigit(n / 16), HexDigit(n % 16)];
    }
  }

  lemma {:induction false} EscapeHasNoLineBreak(s: string)
    ensures '\n' !in Escape(s) && '\r' !in Escape(s)
  {
    if s != [] {
      EscapeHasNoLineBreak(s[1..]);
      EscapeCharHasNoLineBreak(s[0]);
      assert Escape(s) == EscapeChar(s[0]) + Escape(s[1..]);
    }
  }

  /** A JSON fragment holds no line feed and no carriage return, whatever the sample holds. (U+2028
      and U+2029 are not escaped by `JSON.stringify`, so they pass through.) */
  lemma EntryIsOneLine(key: string, value: string)
    ensures '\n' !in Entry(key, value) && '\r' !in Entry(key, value)
  {
    EscapeHasNoLineBreak(key);
    EscapeHasNoLineBreak(value);
    assert '\n' !in Quote(key) && '\n' !in Quote(value);
    assert '\r' !in Quote(key) && '\r' !in Quote(value);
  }
}
