/**
 * The JSON text a story's tags are stored as. The server writes the tag list
 * with `JSON.stringify` into a text column; the client reads it back with
 * `JSON.parse`. This module is that pair, restricted to what a tag list
 * needs: an array of strings. Encode writes exactly what `JSON.stringify`
 * writes for an array of strings (no spaces, the short escapes, `\u00XX` for
 * other control characters); Decode accepts the JSON texts that denote an
 * array of strings, with insignificant whitespace, and fails on the rest.
 */
module TagsJson {
  import opened Wrappers

  /** JSON whitespace between tokens. */
  predicate IsJsonSpace(c: char) {
    c == ' ' || c == '\t' || c == '\n' || c == '\r'
  }

  function SkipSpace(s: string): (r: string)
    ensures |r| <= |s|
    ensures s != [] && !IsJsonSpace(s[0]) ==> r == s
    decreases |s|
  {
    if s != [] && IsJsonSpace(s[0]) then SkipSpace(s[1..]) else s
  }

  function HexDigit(n: int): char
    requires 0 <= n < 16
  {
    if n < 10 then ('0' as int + n) as char else ('a' as int + n - 10) as char
  }

  function HexValue(c: char): Option<int> {
    if '0' <= c <= '9' then Some(c as int - '0' as int)
    else if 'a' <= c <= 'f' then Some(c as int - 'a' as int + 10)
    else if 'A' <= c <= 'F' then Some(c as int - 'A' as int + 10)
    else None
  }

  /** How `JSON.stringify` writes one character inside a string literal. */
  function EscapeChar(c: char): string {
    if c == '"' then ['\\', '"']
    else if c == '\\' then ['\\', '\\']
    else if c == '\n' then ['\\', 'n']
    else if c == '\r' then ['\\', 'r']
    else if c == '\t' then ['\\', 't']
    else if c as int == 0x08 then ['\\', 'b']
    else if c as int == 0x0C then ['\\', 'f']
    else if c as int < 0x20 then ['\\', 'u', '0', '0', HexDigit(c as int / 16), HexDigit(c as int % 16)]
    else [c]
  }

  function Escape(s: string): string
    decreases |s|
  {
    if s == [] then [] else EscapeChar(s[0]) + Escape(s[1..])
  }

  /** A JSON string literal. */
  function Quote(s: string): string {
    ['"'] + Escape(s) + ['"']
  }

  function EncodeItems(tags: seq<string>): string
    decreases |tags|
  {
    if |tags| == 0 then []
    else if |tags| == 1 then Quote(tags[0])
    else Quote(tags[0]) + [','] + EncodeItems(tags[1..])
  }

  /** `JSON.stringify(tags)` for an array of strings. */
  function Encode(tags: seq<string>): string {
    ['['] + EncodeItems(tags) + [']']
  }

  /** The number four hex digits starting at `s[i]` spell, if they do. */
  function HexQuad(s: string, i: nat): (r: Option<int>)
    requires i + 4 <= |s|
    ensures r.Some? ==> 0 <= r.value < 0x1_0000
  {
    match (HexValue(s[i]), HexValue(s[i + 1]), HexValue(s[i + 2]), HexValue(s[i + 3]))
    case (Some(a), Some(b), Some(c), Some(d)) => Some(a * 4096 + b * 256 + c * 16 + d)
    case _ => None
  }

  /**
   * The character an escape sequence denotes, and how many characters after
   * the backslash it takes. A high surrogate followed by `\u` and a low
   * surrogate is one character, as in `JSON.parse`; None for a malformed
   * escape or a `\u` escape that names a lone surrogate.
   */
  function Unescape(s: string): (r: Option<(char, nat)>)
    ensures r.Some? ==> 1 <= r.value.1 <= |s|
  {
    if s == [] then None
    else if s[0] == '"' then Some(('"', 1))
    else if s[0] == '\\' then Some(('\\', 1))
    else if s[0] == '/' then Some(('/', 1))
    else if s[0] == 'b' then Some((0x08 as char, 1))
    else if s[0] == 'f' then Some((0x0C as char, 1))
    else if s[0] == 'n' then Some(('\n', 1))
    else if s[0] == 'r' then Some(('\r', 1))
    else if s[0] == 't' then Some(('\t', 1))
    else if s[0] == 'u' && |s| >= 5 then
      match HexQuad(s, 1)
      case None => None
      case Some(v) =>
        if v < 0xD800 || 0xE000 <= v then Some((v as char, 5))
        else if v < 0xDC00 && |s| >= 11 && s[5] == '\\' && s[6] == 'u' then
          match HexQuad(s, 7)
          case Some(w) =>
            if 0xDC00 <= w < 0xE000 then Some(((0x1_0000 + (v - 0xD800) * 0x400 + (w - 0xDC00)) as char, 11))
            else None
          case None => None
        else None
    else None
  }

  /**
   * The contents of a string literal whose opening quote has been read, and
   * the text after its closing quote. A raw control character is an error,
   * as in `JSON.parse`.
   */
  function StringBody(s: string): (r: Option<(string, string)>)
    ensures r.Some? ==> |r.value.1| < |s|
    decreases |s|
  {
    if s == [] then None
    else if s[0] == '"' then Some(([], s[1..]))
    else if s[0] == '\\' then
      match Unescape(s[1..])
      case None => None
      case Some((c, n)) =>
        match StringBody(s[1 + n..])
        case None => None
        case Some((t, rest)) => Some(([c] + t, rest))
    else if s[0] as int < 0x20 then None
    else
      match StringBody(s[1..])
      case None => None
      case Some((t, rest)) => Some(([s[0]] + t, rest))
  }

  /**
   * One or more string literals separated by commas and closed by `]`,
   * starting at the first literal; gives the strings and the text after `]`.
   */
  function Elements(s: string): (r: Option<(seq<string>, string)>)
    ensures r.Some? ==> |r.value.1| < |s|
    decreases |s|
  {
    if s == [] || s[0] != '"' then None
    else
      match StringBody(s[1..])
      case None => None
      case Some((t, after)) =>
        var next := SkipSpace(after);
        if next != [] && next[0] == ']' then Some(([t], next[1..]))
        else if next != [] && next[0] == ',' then
          match Elements(SkipSpace(next[1..]))
          case None => None
          case Some((ts, rest)) => Some(([t] + ts, rest))
        else None
  }

  /** `JSON.parse(text)` where the result has to be an array of strings. */
  function Decode(text: string): Option<seq<string>> {
    var s := SkipSpace(text);
    if s == [] || s[0] != '[' then None
    else
      var inner := SkipSpace(s[1..]);
      if inner != [] && inner[0] == ']' then
        if SkipSpace(inner[1..]) == [] then Some([]) else None
      else
        match Elements(inner)
        case None => None
        case Some((tags, rest)) => if SkipSpace(rest) == [] then Some(tags) else None
  }

  /** `\uD83D\uDE00` is the one character U+1F600, and a high surrogate alone is refused. */
  lemma SurrogatePairIsOneChar()
    ensures Unescape("uD83D\\uDE00") == Some(('\U{1F600}', 11))
    ensures Unescape("uD83D") == None
  {
    var s := "uD83D\\uDE00";
    assert HexQuad(s, 1) == Some(0xD83D);
    assert HexQuad(s, 7) == Some(0xDE00);
  }

  lemma HexRoundTrip(n: int)
    requires 0 <= n < 16
    ensures HexValue(HexDigit(n)) == Some(n)
  {
  }

  /** Each escape the encoder writes is read back as the character it came from. */
  lemma UnescapeEscapeChar(c: char, rest: string)
    requires EscapeChar(c) != [c]
    ensures EscapeChar(c)[0] == '\\'
    ensures Unescape(EscapeChar(c)[1..] + rest) == Some((c, |EscapeChar(c)| - 1))
  {
    if c as int < 0x20 && c != '\n' && c != '\r' && c != '\t' && c as int != 0x08 && c as int != 0x0C {
      var hi, lo := c as int / 16, c as int % 16;
      HexRoundTrip(hi);
      HexRoundTrip(lo);
      var s := EscapeChar(c)[1..] + rest;
      assert s[0] == 'u' && s[1] == '0' && s[2] == '0' && s[3] == HexDigit(hi) && s[4] == HexDigit(lo);
      assert 0 * 4096 + 0 * 256 + hi * 16 + lo == c as int;
    }
  }

  /** Reading one written character gives it back, followed by whatever the rest reads as. */
  lemma StringBodyStep(c: char, tail: string)
    ensures StringBody(EscapeChar(c) + tail)
         == match StringBody(tail)
            case None => None
            case Some((t, rest)) => Some(([c] + t, rest))
  {
    var e := EscapeChar(c);
    var s := e + tail;
    if e == [c] {
      assert s[0] == c && s[1..] == tail;
    } else {
      UnescapeEscapeChar(c, tail);
      assert s[0] == '\\';
      assert s[1..] == e[1..] + tail;
      assert s[1 + (|e| - 1)..] == tail;
    }
  }

  /** Reading an escaped string literal gives back the string and the text after it. */
  lemma {:induction false} StringBodyOfQuoted(t: string, rest: string)
    ensures StringBody(Escape(t) + ['"'] + rest) == Some((t, rest))
    decreases |t|
  {
    if t == [] {
      assert Escape(t) + ['"'] + rest == ['"'] + rest;
    } else {
      var tail := Escape(t[1..]) + ['"'] + rest;
      assert Escape(t) + ['"'] + rest == EscapeChar(t[0]) + tail;
      StringBodyOfQuoted(t[1..], rest);
      StringBodyStep(t[0], tail);
      assert [t[0]] + t[1..] == t;
    }
  }

  /** The first literal of an element list is read back, whatever follows it. */
  lemma ElementsHead(t: string, after: string)
    ensures StringBody((['"'] + Escape(t) + ['"'] + after)[1..]) == Some((t, after))
  {
    assert (['"'] + Escape(t) + ['"'] + after)[1..] == Escape(t) + ['"'] + after;
    StringBodyOfQuoted(t, after);
  }

  lemma ElementsOfLast(t: string, rest: string)
    ensures Elements(Quote(t) + [']'] + rest) == Some(([t], rest))
  {
    var after := [']'] + rest;
    assert Quote(t) + [']'] + rest == ['"'] + Escape(t) + ['"'] + after;
    ElementsHead(t, after);
    assert SkipSpace(after) == after;
    assert after[1..] == rest;
  }

  lemma ElementsOfCons(t: string, more: string)
    requires more != [] && more[0] == '"'
    ensures Elements(Quote(t) + [','] + more)
         == match Elements(more)
            case None => None
            case Some((ts, rest)) => Some(([t] + ts, rest))
  {
    var after := [','] + more;
    assert Quote(t) + [','] + more == ['"'] + Escape(t) + ['"'] + after;
    ElementsHead(t, after);
    assert SkipSpace(after) == after;
    assert after[1..] == more;
    assert SkipSpace(more) == more;
  }

  lemma {:induction false} ElementsOfEncoded(tags: seq<string>, rest: string)
    requires |tags| >= 1
    ensures Elements(EncodeItems(tags) + [']'] + rest) == Some((tags, rest))
    decreases |tags|
  {
    if |tags| == 1 {
      ElementsOfLast(tags[0], rest);
      assert tags == [tags[0]];
    } else {
      var more := EncodeItems(tags[1..]) + [']'] + rest;
      assert EncodeItems(tags) + [']'] + rest == Quote(tags[0]) + [','] + more;
      ElementsOfEncoded(tags[1..], rest);
      ElementsOfCons(tags[0], more);
      assert [tags[0]] + tags[1..] == tags;
    }
  }

  /** An array whose elements are read up to the very end decodes to them. */
  lemma DecodeOfElements(text: string, tags: seq<string>)
    requires |text| >= 2 && text[0] == '[' && text[1] == '"'
    requires Elements(text[1..]) == Some((tags, []))
    ensures Decode(text) == Some(tags)
  {
    assert SkipSpace(text) == text;
    assert SkipSpace(text[1..]) == text[1..];
  }

  /** `JSON.parse(JSON.stringify(tags))` gives back the same tag list. */
  lemma RoundTrip(tags: seq<string>)
    ensures Decode(Encode(tags)) == Some(tags)
  {
    var text := Encode(tags);
    assert text[1..] == EncodeItems(tags) + [']'];
    if tags == [] {
      assert text == ['[', ']'];
    } else {
      assert EncodeItems(tags)[0] == '"';
      ElementsOfEncoded(tags, []);
      assert EncodeItems(tags) + [']'] + [] == text[1..];
      DecodeOfElements(text, tags);
    }
  }
}
