/**
 * JSON.stringify applied to an array of strings, as verifyToken uses it to
 * compare scope lists, together with the matching part of JSON.parse.
 * The parser is the inverse that shows two arrays stringify to the same
 * text exactly when they are the same sequence.
 */
module Json {
  import opened Wrappers

  /** Value of a hexadecimal digit in a \u escape. */
  function HexValue(c: char): (r: Option<nat>)
    ensures r.Some? ==> r.value < 16
  {
    if '0' <= c <= '9' then Some(c as int - '0' as int)
    else if 'a' <= c <= 'f' then Some(c as int - 'a' as int + 10)
    else if 'A' <= c <= 'F' then Some(c as int - 'A' as int + 10)
    else None
  }

  /** The lower-case hexadecimal digit JSON.stringify writes for a nibble. */
  function HexDigit(n: nat): (c: char)
    requires n < 16
    ensures HexValue(c) == Some(n)
  {
    if n < 10 then ('0' as int + n) as char else ('a' as int + (n - 10)) as char
  }

  /**
   * How JSON.stringify writes one character inside a string literal: the
   * quote and the backslash and the five control characters with a short
   * form get a two-character escape, every other control character a
   * \u00xx escape, and every other character stands for itself.
   */
  function EscapeChar(c: char): (e: string)
    ensures 0 < |e|
    ensures e[0] != '\\' ==> e == [c] && c != '"' && 0x20 <= c as int
  {
    if c == '"' then ['\\', '"']
    else if c == '\\' then ['\\', '\\']
    else if c as int == 0x08 then ['\\', 'b']
    else if c as int == 0x09 then ['\\', 't']
    else if c as int == 0x0A then ['\\', 'n']
    else if c as int == 0x0C then ['\\', 'f']
    else if c as int == 0x0D then ['\\', 'r']
    else if c as int < 0x20 then ['\\', 'u', '0', '0', HexDigit(c as int / 16), HexDigit(c as int % 16)]
    else [c]
  }

  /** The body of a string literal, without its quotes. */
  function Escape(s: string): string
  {
    if s == [] then [] else EscapeChar(s[0]) + Escape(s[1..])
  }

  /** A string literal: the escaped body between double quotes. */
  function Quote(s: string): (q: string)
    ensures 2 <= |q| && q[0] == '"' && q[|q| - 1] == '"'
  {
    "\"" + Escape(s) + "\""
  }

  /** The elements of an array literal, separated by commas. */
  function Join(xs: seq<string>): string
  {
    if |xs| == 0 then ""
    else if |xs| == 1 then Quote(xs[0])
    else Quote(xs[0]) + "," + Join(xs[1..])
  }

  /**
   * JSON.stringify of an array of strings: the string literals of the
   * elements, in order, separated by commas and enclosed in brackets.
   */
  function Stringify(xs: seq<string>): (text: string)
    ensures 2 <= |text| && text[0] == '[' && text[|text| - 1] == ']'
    ensures text == "[]" <==> xs == []
    ensures xs != [] ==> text[1] == '"'
  {
    "[" + Join(xs) + "]"
  }

  /**
   * Reads the escape sequence that follows a backslash; gives the character
   * it stands for and the text after it.
   */
  function Unescape(s: string): (r: Option<(char, string)>)
    ensures r.Some? ==> |r.value.1| < |s|
  {
    if |s| == 0 then None
    else if s[0] == '"' then Some(('"', s[1..]))
    else if s[0] == '\\' then Some(('\\', s[1..]))
    else if s[0] == '/' then Some(('/', s[1..]))
    else if s[0] == 'b' then Some((0x08 as char, s[1..]))
    else if s[0] == 't' then Some((0x09 as char, s[1..]))
    else if s[0] == 'n' then Some((0x0A as char, s[1..]))
    else if s[0] == 'f' then Some((0x0C as char, s[1..]))
    else if s[0] == 'r' then Some((0x0D as char, s[1..]))
    else if s[0] == 'u' && 5 <= |s| then
      match (HexValue(s[1]), HexValue(s[2]), HexValue(s[3]), HexValue(s[4]))
      case (Some(d1), Some(d2), Some(d3), Some(d4)) =>
        var n := ((d1 * 16 + d2) * 16 + d3) * 16 + d4;
        // a lone surrogate code unit has no counterpart among Dafny's characters
        if n < 0xD800 || 0xE000 <= n then Some((n as char, s[5..])) else None
      case _ => None
    else None
  }

  /**
   * Reads the body of a string literal up to its closing quote; gives the
   * decoded string and the text after the quote.
   */
  function ParseBody(s: string): (r: Option<(string, string)>)
    ensures r.Some? ==> |r.value.1| < |s|
    decreases |s|
  {
    if |s| == 0 then None
    else if s[0] == '"' then Some(([], s[1..]))
    else if s[0] == '\\' then
      match Unescape(s[1..])
      case None => None
      case Some((c, rest)) =>
        match ParseBody(rest)
        case None => None
        case Some((t, after)) => Some(([c] + t, after))
    else if s[0] as int < 0x20 then None
    else
      match ParseBody(s[1..])
      case None => None
      case Some((t, after)) => Some(([s[0]] + t, after))
  }

  /** Reads one or more string literals separated by commas, up to the closing bracket. */
  function ParseElements(s: string): Option<seq<string>>
    decreases |s|
  {
    if |s| == 0 || s[0] != '"' then None
    else
      match ParseBody(s[1..])
      case None => None
      case Some((x, rest)) =>
        if rest == "]" then Some([x])
        else if |rest| > 0 && rest[0] == ',' then
          match ParseElements(rest[1..])
          case None => None
          case Some(ys) => Some([x] + ys)
        else None
  }

  /** Reads back the text Stringify writes: an array of string literals, with no whitespace. */
  function Parse(s: string): Option<seq<string>>
  {
    if s == "[]" then Some([])
    else if |s| > 0 && s[0] == '[' then ParseElements(s[1..])
    else None
  }

  lemma UnescapeEscapeChar(c: char, tail: string)
    requires EscapeChar(c)[0] == '\\'
    ensures Unescape(EscapeChar(c)[1..] + tail) == Some((c, tail))
  {
  }

  /** Reading back an escaped string literal body gives the string and what follows it. */
  lemma {:induction false} ParseBodyEscape(x: string, rest: string)
    ensures ParseBody(Escape(x) + "\"" + rest) == Some((x, rest))
  {
    var s := Escape(x) + "\"" + rest;
    if x == [] {
      assert s == "\"" + rest;
    } else {
      var e := EscapeChar(x[0]);
      var tail := Escape(x[1..]) + "\"" + rest;
      assert s == e + tail;
      ParseBodyEscape(x[1..], rest);
      if e[0] == '\\' {
        assert s[1..] == e[1..] + tail;
        UnescapeEscapeChar(x[0], tail);
      } else {
        assert s[1..] == tail;
      }
      assert [x[0]] + x[1..] == x;
    }
  }

  /** One element read off the front of a joined array body. */
  lemma ParseFirstElement(x: string, more: string)
    ensures ParseBody(("\"" + Escape(x) + "\"" + more)[1..]) == Some((x, more))
  {
    assert ("\"" + Escape(x) + "\"" + more)[1..] == Escape(x) + "\"" + more;
    ParseBodyEscape(x, more);
  }

  /** A lone element before the closing bracket. */
  lemma ParseElementsSingle(x: string)
    ensures ParseElements("\"" + Escape(x) + "\"" + "]") == Some([x])
  {
    ParseFirstElement(x, "]");
  }

  /** An element followed by a comma and a body that parses: the element joins the front. */
  lemma ParseElementsCons(x: string, tailText: string, ys: seq<string>)
    requires ParseElements(tailText) == Some(ys)
    ensures ParseElements("\"" + Escape(x) + "\"" + ("," + tailText)) == Some([x] + ys)
  {
    var more := "," + tailText;
    ParseFirstElement(x, more);
    assert more != "]" && more[0] == ',' && more[1..] == tailText;
  }

  lemma {:induction false} ParseElementsJoin(xs: seq<string>)
    requires 0 < |xs|
    ensures ParseElements(Join(xs) + "]") == Some(xs)
  {
    if |xs| == 1 {
      assert Join(xs) + "]" == "\"" + Escape(xs[0]) + "\"" + "]";
      ParseElementsSingle(xs[0]);
      assert [xs[0]] == xs;
    } else {
      ParseElementsJoin(xs[1..]);
      ParseElementsCons(xs[0], Join(xs[1..]) + "]", xs[1..]);
      assert Join(xs) + "]" == "\"" + Escape(xs[0]) + "\"" + ("," + (Join(xs[1..]) + "]"));
      assert [xs[0]] + xs[1..] == xs;
    }
  }

  /** Parsing what Stringify writes gives back the array. */
  lemma ParseStringify(xs: seq<string>)
    ensures Parse(Stringify(xs)) == Some(xs)
  {
    var s := Stringify(xs);
    if |xs| > 0 {
      assert |Join(xs)| >= 2;
      assert s[1..] == Join(xs) + "]";
      ParseElementsJoin(xs);
    }
  }

  /**
   * Two string arrays stringify to the same text exactly when they hold the
   * same strings in the same order.
   */
  lemma StringifyInjective(a: seq<string>, b: seq<string>)
    ensures Stringify(a) == Stringify(b) <==> a == b
  {
    if Stringify(a) == Stringify(b) {
      ParseStringify(a);
      ParseStringify(b);
    }
  }
}
