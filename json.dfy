/** The part of `JSON.stringify` the agent applies to its own values: a
    string is written between double quotes, with the quotation mark, the
    backslash and the control characters escaped (ECMA-262, section 25.5.2.3,
    QuoteJSONString); a tool result `{ type: 'tool_result', output }` becomes
    an object with those two members, in that order. */
module Json {
  import opened Wrappers

  const QuoteMark: char := '"'
  const Backslash: char := '\\'

  /** The two-character escapes of QuoteJSONString, by the character they stand for. */
  function ShortEscape(c: char): Option<char>
  {
    if c == QuoteMark then Some(QuoteMark)
    else if c == Backslash then Some(Backslash)
    else if c == 8 as char then Some('b')
    else if c == 9 as char then Some('t')
    else if c == 10 as char then Some('n')
    else if c == 12 as char then Some('f')
    else if c == 13 as char then Some('r')
    else None
  }

  /** The character a two-character escape stands for (`\/` included, which
      a parser accepts although stringify never writes it). */
  function ShortUnescape(e: char): Option<char>
  {
    if e == QuoteMark then Some(QuoteMark)
    else if e == Backslash then Some(Backslash)
    else if e == '/' then Some('/')
    else if e == 'b' then Some(8 as char)
    else if e == 't' then Some(9 as char)
    else if e == 'n' then Some(10 as char)
    else if e == 'f' then Some(12 as char)
    else if e == 'r' then Some(13 as char)
    else None
  }

  lemma ShortEscapeInverse(c: char)
    requires ShortEscape(c).Some?
    ensures ShortUnescape(ShortEscape(c).value) == Some(c)
  {
  }

  function HexDigit(d: nat): (c: char)
    requires d < 16
  {
    if d < 10 then ('0' as int + d) as char else ('a' as int + d - 10) as char
  }

  function HexValue(c: char): (r: Option<nat>)
    ensures r.Some? ==> r.value < 16
  {
    if '0' <= c <= '9' then Some(c as int - '0' as int)
    else if 'a' <= c <= 'f' then Some(c as int - 'a' as int + 10)
    else if 'A' <= c <= 'F' then Some(c as int - 'A' as int + 10)
    else None
  }

  lemma HexDigitValue(d: nat)
    requires d < 16
    ensures HexValue(HexDigit(d)) == Some(d)
  {
  }

  /** The value of two hexadecimal digits. */
  function Hex2(s: string): (r: Option<nat>)
    requires |s| == 2
    ensures r.Some? ==> r.value < 0x100
  {
    var hi, lo := HexValue(s[0]), HexValue(s[1]);
    if hi.Some? && lo.Some? then Some(hi.value * 16 + lo.value) else None
  }

  /** The value of four hexadecimal digits. */
  function Hex4(s: string): (r: Option<nat>)
    requires |s| == 4
    ensures r.Some? ==> r.value < 0x10000
  {
    var hi, lo := Hex2(s[..2]), Hex2(s[2..]);
    if hi.Some? && lo.Some? then Some(hi.value * 0x100 + lo.value) else None
  }

  /** The character of a `\uXXXX` escape; a lone surrogate has none. */
  function UnicodeEscape(s: string): Option<char>
    requires |s| == 4
  {
    var v := Hex4(s);
    if v.Some? && (v.value < 0xD800 || 0xE000 <= v.value) then Some(v.value as char) else None
  }

  /** How QuoteJSONString writes one character: a short escape, `\u00xx`
      (lower-case digits) for the other control characters, or the
      character itself. */
  function Escape(c: char): (r: string)
    ensures 1 <= |r| <= 6
  {
    if ShortEscape(c).Some? then [Backslash, ShortEscape(c).value]
    else if (c as int) < 0x20 then [Backslash, 'u', '0', '0', HexDigit(c as int / 16), HexDigit(c as int % 16)]
    else [c]
  }

  function EscapeAll(s: string): string
  {
    if s == [] then [] else Escape(s[0]) + EscapeAll(s[1..])
  }

  /** `JSON.stringify` of a string. */
  function Stringify(s: string): (r: string)
    ensures |r| >= 2 && r[0] == QuoteMark && r[|r| - 1] == QuoteMark
  {
    [QuoteMark] + EscapeAll(s) + [QuoteMark]
  }

  function Prepend(c: char, rest: Option<string>): Option<string>
  {
    if rest.Some? then Some([c] + rest.value) else None
  }

  /** Reads the text between the quotes of a JSON string: `None` for a raw
      quotation mark or control character and for an unknown escape. */
  function Unescape(s: string): Option<string>
    decreases |s|
  {
    if s == [] then Some([])
    else if s[0] == Backslash then
      if |s| < 2 then None
      else if ShortUnescape(s[1]).Some? then Prepend(ShortUnescape(s[1]).value, Unescape(s[2..]))
      else if s[1] == 'u' && |s| >= 6 && UnicodeEscape(s[2..6]).Some? then
        Prepend(UnicodeEscape(s[2..6]).value, Unescape(s[6..]))
      else None
    else if s[0] == QuoteMark || (s[0] as int) < 0x20 then None
    else Prepend(s[0], Unescape(s[1..]))
  }

  /** `JSON.parse` of a string literal. */
  function Parse(s: string): Option<string>
  {
    if |s| >= 2 && s[0] == QuoteMark && s[|s| - 1] == QuoteMark then Unescape(s[1..|s| - 1]) else None
  }

  lemma UnescapeControl(c: char, rest: string)
    requires ShortEscape(c).None? && (c as int) < 0x20
    ensures Unescape(Escape(c) + rest) == Prepend(c, Unescape(rest))
  {
    var s := Escape(c) + rest;
    var v := c as int;
    HexDigitValue(v / 16);
    HexDigitValue(v % 16);
    assert s[2..6][..2] == ['0', '0'] && s[2..6][2..] == [HexDigit(v / 16), HexDigit(v % 16)];
    assert UnicodeEscape(s[2..6]) == Some(c);
    assert s[6..] == rest;
  }

  /** Reading back one escaped character gives the character. */
  lemma UnescapeStep(c: char, rest: string)
    ensures Unescape(Escape(c) + rest) == Prepend(c, Unescape(rest))
  {
    var s := Escape(c) + rest;
    if ShortEscape(c).Some? {
      ShortEscapeInverse(c);
      assert s[2..] == rest;
    } else if (c as int) < 0x20 {
      UnescapeControl(c, rest);
    } else {
      assert s[1..] == rest;
    }
  }

  /** Reading back an escaped string gives the string. */
  lemma {:induction false} UnescapeEscapeAll(s: string)
    ensures Unescape(EscapeAll(s)) == Some(s)
  {
    if s != [] {
      UnescapeStep(s[0], EscapeAll(s[1..]));
      UnescapeEscapeAll(s[1..]);
      assert [s[0]] + s[1..] == s;
    }
  }

  /** `JSON.parse(JSON.stringify(s)) === s`. */
  lemma ParseStringify(s: string)
    ensures Parse(Stringify(s)) == Some(s)
  {
    var r := Stringify(s);
    assert r[1..|r| - 1] == EscapeAll(s);
    UnescapeEscapeAll(s);
  }

  /** The text of a tool result up to its output member's value. */
  const ToolResultOpen: string := "{\"type\":\"tool_result\",\"output\":"

  /** `JSON.stringify({ type: 'tool_result', output })`. */
  function ToolResultJson(output: string): (r: string)
    ensures |r| > |ToolResultOpen| && r[..|ToolResultOpen|] == ToolResultOpen && r[|r| - 1] == '}'
  {
    ToolResultOpen + Stringify(output) + "}"
  }

  /** The output member of a serialised tool result reads back as the output. */
  lemma ToolResultJsonOutput(output: string)
    ensures var r := ToolResultJson(output);
      Parse(r[|ToolResultOpen|..|r| - 1]) == Some(output)
  {
    var r := ToolResultJson(output);
    assert r[|ToolResultOpen|..|r| - 1] == Stringify(output);
    ParseStringify(output);
  }
}
