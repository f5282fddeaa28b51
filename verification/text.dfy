/** The text helpers `process.String` relies on: Go's `%q` quoting of an
    argument (`strconv.Quote`, restricted to what it does on ASCII), with its
    inverse, and `strings.Join`, with a splitting inverse. */
module Text {
  import opened Base

  // ---------------------------------------------------------------------
  // Quoting

  /** The lower-case hexadecimal digit for `d`. */
  function HexDigit(d: nat): (c: char)
    requires d < 16
  {
    if d < 10 then ('0' as int + d) as char else ('a' as int + d - 10) as char
  }

  /** The value of a hexadecimal digit, either case. */
  function HexValue(c: char): Option<nat> {
    if '0' <= c <= '9' then Some(c as int - '0' as int)
    else if 'a' <= c <= 'f' then Some(c as int - 'a' as int + 10)
    else if 'A' <= c <= 'F' then Some(c as int - 'A' as int + 10)
    else None
  }

  /** How `%q` writes one character between the quotes: backslash and
      double quote are escaped, the seven C control escapes are used where
      they exist, the remaining ASCII control characters become `\xhh`, and
      everything else is kept. */
  function EscapeChar(c: char): string {
    var v := c as int;
    if c == '"' || c == '\\' then ['\\', c]
    else if v == 7 then "\\a"
    else if v == 8 then "\\b"
    else if v == 12 then "\\f"
    else if v == 10 then "\\n"
    else if v == 13 then "\\r"
    else if v == 9 then "\\t"
    else if v == 11 then "\\v"
    else if v < 0x20 || v == 0x7F then ['\\', 'x', HexDigit(v / 16), HexDigit(v % 16)]
    else [c]
  }

  function Escape(s: string): string
    decreases |s|
  {
    if s == [] then [] else EscapeChar(s[0]) + Escape(s[1..])
  }

  /** `fmt.Sprintf("%q", s)`. */
  function Quote(s: string): string {
    ['"'] + Escape(s) + ['"']
  }

  /** The character a one-letter escape `\c` stands for. */
  function SimpleUnescape(c: char): Option<char> {
    if c == 'a' then Some(7 as char)
    else if c == 'b' then Some(8 as char)
    else if c == 'f' then Some(12 as char)
    else if c == 'n' then Some(10 as char)
    else if c == 'r' then Some(13 as char)
    else if c == 't' then Some(9 as char)
    else if c == 'v' then Some(11 as char)
    else if c == '\\' || c == '"' then Some(c)
    else None
  }

  function Prepend(c: char, rest: Option<string>): Option<string> {
    match rest
    case Some(s) => Some([c] + s)
    case None => None
  }

  /** Decodes the escapes `Escape` produces; `None` on a malformed escape. */
  function Unescape(e: string): Option<string>
    decreases |e|
  {
    if e == [] then Some([])
    else if e[0] != '\\' then Prepend(e[0], Unescape(e[1..]))
    else if |e| < 2 then None
    else if e[1] == 'x' then
      if |e| < 4 then None
      else match (HexValue(e[2]), HexValue(e[3]))
        case (Some(hi), Some(lo)) => Prepend((hi * 16 + lo) as char, Unescape(e[4..]))
        case _ => None
    else match SimpleUnescape(e[1])
      case Some(c) => Prepend(c, Unescape(e[2..]))
      case None => None
  }

  /** Strips the surrounding double quotes and decodes the escapes. */
  function Unquote(q: string): Option<string> {
    if |q| >= 2 && q[0] == '"' && q[|q| - 1] == '"' then Unescape(q[1..|q| - 1]) else None
  }

  lemma HexRoundTrip(d: nat)
    requires d < 16
    ensures HexValue(HexDigit(d)) == Some(d)
  {
  }

  /** Decoding reads back one escaped character and continues after it. */
  lemma UnescapeEscapeChar(c: char, rest: string)
    ensures Unescape(EscapeChar(c) + rest) == Prepend(c, Unescape(rest))
  {
    var v := c as int;
    var e := EscapeChar(c) + rest;
    if c == '"' || c == '\\' {
      assert e[2..] == rest;
    } else if v == 7 || v == 8 || v == 12 || v == 10 || v == 13 || v == 9 || v == 11 {
      assert e[2..] == rest;
    } else if v < 0x20 || v == 0x7F {
      HexRoundTrip(v / 16);
      HexRoundTrip(v % 16);
      assert e[4..] == rest;
      assert (v / 16 * 16 + v % 16) as char == c;
    } else {
      assert e[1..] == rest;
    }
  }

  /** Decoding undoes escaping. */
  lemma {:induction false} UnescapeEscape(s: string)
    ensures Unescape(Escape(s)) == Some(s)
    decreases |s|
  {
    if s != [] {
      UnescapeEscapeChar(s[0], Escape(s[1..]));
      UnescapeEscape(s[1..]);
      assert [s[0]] + s[1..] == s;
    }
  }

  /** Unquoting undoes `%q`: the quoted form determines the argument. */
  lemma QuoteRoundTrip(s: string)
    ensures Unquote(Quote(s)) == Some(s)
  {
    var q := Quote(s);
    assert q[1..|q| - 1] == Escape(s);
    UnescapeEscape(s);
  }

  /** Escaping leaves no control character in the text: in particular no
      tab, newline or carriage return. */
  lemma {:induction false} EscapeIsPrintable(s: string)
    ensures forall i :: 0 <= i < |Escape(s)| ==> Escape(s)[i] as int >= 0x20 && Escape(s)[i] as int != 0x7F
    decreases |s|
  {
    if s != [] {
      EscapeIsPrintable(s[1..]);
      var head := EscapeChar(s[0]);
      var v := s[0] as int;
      if v < 0x20 || v == 0x7F {
        assert v / 16 < 16;
      }
      assert forall i :: 0 <= i < |head| ==> head[i] as int >= 0x20 && head[i] as int != 0x7F;
    }
  }

  /** The quoted form starts and ends with a double quote and contains no
      tab, newline or carriage return. */
  lemma QuoteIsOneLine(s: string)
    ensures |Quote(s)| >= 2 && Quote(s)[0] == '"' && Quote(s)[|Quote(s)| - 1] == '"'
    ensures forall i :: 0 <= i < |Quote(s)| ==> Quote(s)[i] !in "\t\n\r"
  {
    EscapeIsPrintable(s);
    var q := Quote(s);
    forall i | 0 <= i < |q|
      ensures q[i] !in "\t\n\r"
    {
      if 0 < i < |q| - 1 {
        assert q[i] == Escape(s)[i - 1];
      }
    }
  }

  // ---------------------------------------------------------------------
  // Joining and splitting

  /** `strings.Join(ts, string(sep))`. */
  function Join(ts: seq<string>, sep: char): string
    decreases |ts|
  {
    if |ts| == 0 then ""
    else if |ts| == 1 then ts[0]
    else ts[0] + [sep] + Join(ts[1..], sep)
  }

  /** The pieces of `s` between the occurrences of `sep`, as
      `strings.Split(s, string(sep))` returns them. */
  function Split(s: string, sep: char): (r: seq<string>)
    ensures |r| >= 1
    decreases |s|
  {
    if s == [] then [""]
    else
      var rest := Split(s[1..], sep);
      if s[0] == sep then [""] + rest else [[s[0]] + rest[0]] + rest[1..]
  }

  lemma {:induction false} SplitWithoutSeparator(t: string, sep: char)
    requires sep !in t
    ensures Split(t, sep) == [t]
    decreases |t|
  {
    if t != [] {
      SplitWithoutSeparator(t[1..], sep);
      assert [t[0]] + t[1..] == t;
    }
  }

  lemma {:induction false} SplitAtFirstSeparator(t: string, u: string, sep: char)
    requires sep !in t
    ensures Split(t + [sep] + u, sep) == [t] + Split(u, sep)
    decreases |t|
  {
    var s := t + [sep] + u;
    if t == [] {
      assert s[1..] == u;
    } else {
      assert s[1..] == t[1..] + [sep] + u;
      SplitAtFirstSeparator(t[1..], u, sep);
      assert [t[0]] + t[1..] == t;
    }
  }

  /** Splitting undoes joining when no piece holds the separator. */
  lemma {:induction false} SplitJoin(ts: seq<string>, sep: char)
    requires |ts| >= 1
    requires forall i :: 0 <= i < |ts| ==> sep !in ts[i]
    ensures Split(Join(ts, sep), sep) == ts
    decreases |ts|
  {
    if |ts| == 1 {
      SplitWithoutSeparator(ts[0], sep);
    } else {
      SplitAtFirstSeparator(ts[0], Join(ts[1..], sep), sep);
      SplitJoin(ts[1..], sep);
      assert [ts[0]] + ts[1..] == ts;
    }
  }

  /** A joined text contains a character other than the separator only
      where one of the pieces does. */
  lemma {:induction false} JoinChars(ts: seq<string>, sep: char, c: char)
    requires c != sep
    requires forall i :: 0 <= i < |ts| ==> c !in ts[i]
    ensures c !in Join(ts, sep)
    decreases |ts|
  {
    if |ts| > 1 {
      JoinChars(ts[1..], sep, c);
    }
  }
}
