/**
 The Turtle literal escaper (web/longchat.js:97-119) against RDF 1.1 Turtle: string
 escapes (section 6.4) and production STRING_LITERAL_QUOTE (section 6.5).
 */
module Turtle {
  import opened Prelude

  predicate Control(c: char) { c as int < 32 || c as int == 127 }

  // ---- As the source does it: one global replace after another ----

  function ReplaceAll(s: string, c: char, text: string): string {
    if s == "" then "" else (if s[0] == c then text else [s[0]]) + ReplaceAll(s[1..], c, text)
  }

  function DropControls(s: string): string {
    if s == "" then "" else (if Control(s[0]) then "" else [s[0]]) + DropControls(s[1..])
  }

  function EscapeLiteral(s: string): string {
    DropControls(
      ReplaceAll(ReplaceAll(ReplaceAll(ReplaceAll(ReplaceAll(s, '\\', "\\\\"),
        '"', "\\\""), '\n', "\\n"), '\r', "\\r"), '\t', "\\t"))
  }

  // ---- One character at a time ----

  function EscapeChar(c: char): string {
    if c == '\\' then "\\\\"
    else if c == '"' then "\\\""
    else if c == '\n' then "\\n"
    else if c == '\r' then "\\r"
    else if c == '\t' then "\\t"
    else if Control(c) then ""
    else [c]
  }

  function EscapeEach(s: string): string {
    if s == "" then "" else EscapeChar(s[0]) + EscapeEach(s[1..])
  }

  lemma {:induction false} ReplaceJoins(a: string, b: string, c: char, text: string)
    ensures ReplaceAll(a + b, c, text) == ReplaceAll(a, c, text) + ReplaceAll(b, c, text)
  {
    if a == "" {
      assert a + b == b;
    } else {
      assert (a + b)[1..] == a[1..] + b;
      ReplaceJoins(a[1..], b, c, text);
    }
  }

  lemma {:induction false} DropJoins(a: string, b: string)
    ensures DropControls(a + b) == DropControls(a) + DropControls(b)
  {
    if a == "" {
      assert a + b == b;
    } else {
      assert (a + b)[1..] == a[1..] + b;
      DropJoins(a[1..], b);
    }
  }

  lemma ReplaceOne(c: char, d: char, text: string)
    ensures ReplaceAll([c], d, text) == if c == d then text else [c]
  {
    assert ReplaceAll([c][1..], d, text) == "";
  }

  lemma ReplaceTwo(a: char, b: char, d: char, text: string)
    requires a != d && b != d
    ensures ReplaceAll([a, b], d, text) == [a, b]
  {
    assert [a, b] == [a] + [b];
    ReplaceJoins([a], [b], d, text);
    ReplaceOne(a, d, text);
    ReplaceOne(b, d, text);
  }

  lemma DropOne(c: char)
    ensures DropControls([c]) == if Control(c) then "" else [c]
  {
    assert DropControls([c][1..]) == "";
  }

  lemma DropTwo(a: char, b: char)
    requires !Control(a) && !Control(b)
    ensures DropControls([a, b]) == [a, b]
  {
    assert [a, b] == [a] + [b];
    DropJoins([a], [b]);
    DropOne(a);
    DropOne(b);
  }

  /** Later replaces touch nothing an earlier one wrote, so each character has one fate. */
  lemma EscapeOne(c: char)
    ensures EscapeLiteral([c]) == EscapeChar(c)
  {
    ReplaceOne(c, '\\', "\\\\");
    if c == '\\' {
      ReplaceTwo('\\', '\\', '"', "\\\"");
      ReplaceTwo('\\', '\\', '\n', "\\n");
      ReplaceTwo('\\', '\\', '\r', "\\r");
      ReplaceTwo('\\', '\\', '\t', "\\t");
      DropTwo('\\', '\\');
    } else {
      ReplaceOne(c, '"', "\\\"");
      EscapeRest(c);
    }
  }

  lemma EscapeRest(c: char)
    requires c != '\\'
    ensures var s := if c == '"' then "\\\"" else [c];
      DropControls(ReplaceAll(ReplaceAll(ReplaceAll(s, '\n', "\\n"), '\r', "\\r"), '\t', "\\t")) == EscapeChar(c)
  {
    var e := if c == '"' then '"' else if c == '\n' then 'n' else if c == '\r' then 'r' else 't';
    ReplaceTwo('\\', e, '\n', "\\n");
    ReplaceTwo('\\', e, '\r', "\\r");
    ReplaceTwo('\\', e, '\t', "\\t");
    DropTwo('\\', e);
    ReplaceOne(c, '\n', "\\n");
    ReplaceOne(c, '\r', "\\r");
    ReplaceOne(c, '\t', "\\t");
    DropOne(c);
  }

  lemma EscapeJoins(a: string, b: string)
    ensures EscapeLiteral(a + b) == EscapeLiteral(a) + EscapeLiteral(b)
  {
    ReplaceJoins(a, b, '\\', "\\\\");
    var a1, b1 := ReplaceAll(a, '\\', "\\\\"), ReplaceAll(b, '\\', "\\\\");
    ReplaceJoins(a1, b1, '"', "\\\"");
    var a2, b2 := ReplaceAll(a1, '"', "\\\""), ReplaceAll(b1, '"', "\\\"");
    ReplaceJoins(a2, b2, '\n', "\\n");
    var a3, b3 := ReplaceAll(a2, '\n', "\\n"), ReplaceAll(b2, '\n', "\\n");
    ReplaceJoins(a3, b3, '\r', "\\r");
    var a4, b4 := ReplaceAll(a3, '\r', "\\r"), ReplaceAll(b3, '\r', "\\r");
    ReplaceJoins(a4, b4, '\t', "\\t");
    DropJoins(ReplaceAll(a4, '\t', "\\t"), ReplaceAll(b4, '\t', "\\t"));
  }

  /** The six sequential replaces are one map over characters. */
  lemma {:induction false} SequentialIsPerCharacter(s: string)
    ensures EscapeLiteral(s) == EscapeEach(s)
  {
    if s != "" {
      assert s == [s[0]] + s[1..];
      EscapeJoins([s[0]], s[1..]);
      EscapeOne(s[0]);
      SequentialIsPerCharacter(s[1..]);
    }
  }

  // ---- Reading a literal body back ----

  /** ECHAR of section 6.4: what a character after a backslash stands for. */
  function EChar(c: char): Option<char> {
    match c
    case 't' => Some('\t') case 'b' => Some(8 as char) case 'n' => Some('\n') case 'r' => Some('\r')
    case 'f' => Some(12 as char) case '"' => Some('"') case '\'' => Some('\'') case '\\' => Some('\\')
    case _ => None
  }

  predicate Hex(c: char) { '0' <= c <= '9' || 'A' <= c <= 'F' || 'a' <= c <= 'f' }

  function HexValue(c: char): nat
    requires Hex(c)
  {
    if c <= '9' then c as int - '0' as int
    else if c <= 'F' then c as int - 'A' as int + 10
    else c as int - 'a' as int + 10
  }

  /** A code point written as hex digits; None outside the characters. */
  function CodePoint(s: string): Option<char> {
    if exists i :: 0 <= i < |s| && !Hex(s[i]) then None
    else
      var n := HexNumber(s);
      if n < 0xD800 || 0xE000 <= n < 0x11_0000 then Some(n as char) else None
  }

  function HexNumber(s: string): nat
    requires forall i :: 0 <= i < |s| ==> Hex(s[i])
  {
    if s == "" then 0 else 16 * HexNumber(s[..|s| - 1]) + HexValue(s[|s| - 1])
  }

  /** A character that stands for itself in STRING_LITERAL_QUOTE. */
  predicate Bare(c: char) { c != '"' && c != '\\' && c != '\n' && c != '\r' }

  /** Undo the escapes of a body of STRING_LITERAL_QUOTE; None when it is not one. */
  function Unescape(s: string): Option<string> {
    if s == "" then Some("")
    else if Bare(s[0]) then Prepend(Some(s[0]), Unescape(s[1..]))
    else if s[0] != '\\' || |s| < 2 then None
    else if s[1] == 'u' then
      (if |s| < 6 then None else Prepend(CodePoint(s[2..6]), Unescape(s[6..])))
    else if s[1] == 'U' then
      (if |s| < 10 then None else Prepend(CodePoint(s[2..10]), Unescape(s[10..])))
    else Prepend(EChar(s[1]), Unescape(s[2..]))
  }

  function Prepend(c: Option<char>, rest: Option<string>): Option<string> {
    if c.Some? && rest.Some? then Some([c.value] + rest.value) else None
  }

  /** What the escaper keeps of a string: all but the control characters other than tab, line feed and
      carriage return, codes 9, 10 and 13. */
  function Kept(s: string): string {
    if s == "" then ""
    else
      var n := s[0] as int;
      (if n == 127 || (n < 32 && n != 9 && n != 10 && n != 13) then "" else [s[0]]) + Kept(s[1..])
  }

  lemma UnescapeChar(c: char, rest: string)
    ensures Unescape(EscapeChar(c) + rest) ==
      if EscapeChar(c) == "" then Unescape(rest) else Prepend(Some(c), Unescape(rest))
  {
    var t := EscapeChar(c) + rest;
    if |EscapeChar(c)| == 0 { assert t == rest; }
    else if |EscapeChar(c)| == 1 { assert t[1..] == rest; }
    else { assert t[2..] == rest; }
  }

  /** Un-escaping gives back the string without the stray control characters; in
      particular the escaped text is always a literal body and cannot close the quote. */
  lemma {:induction false} RoundTrip(s: string)
    ensures Unescape(EscapeLiteral(s)) == Some(Kept(s))
    decreases |s|
  {
    SequentialIsPerCharacter(s);
    RoundTripEach(s);
  }

  lemma {:induction false} RoundTripEach(s: string)
    ensures Unescape(EscapeEach(s)) == Some(Kept(s))
  {
    if s != "" {
      RoundTripEach(s[1..]);
      UnescapeChar(s[0], EscapeEach(s[1..]));
      assert "" + Kept(s[1..]) == Kept(s[1..]);
      assert EscapeEach(s) == EscapeChar(s[0]) + EscapeEach(s[1..]);
    }
  }

  /** A body of STRING_LITERAL_QUOTE: bare characters, ECHAR and UCHAR, nothing else. */
  predicate LiteralBody(s: string) { Unescape(s).Some? }

  /** No quote in a literal body is unescaped: a prefix ending just before a quote ends in
      the middle of an escape. */
  lemma {:induction false} QuoteIsEscaped(s: string, i: nat)
    requires LiteralBody(s) && i < |s| && s[i] == '"'
    ensures i > 0 && !LiteralBody(s[..i])
    decreases |s|
  {
    if Bare(s[0]) {
      QuoteIsEscaped(s[1..], i - 1);
      assert s[..i][1..] == s[1..][..i - 1];
    } else {
      var k := if s[1] == 'u' then 6 else if s[1] == 'U' then 10 else 2;
      if i < k {
        UnicodeHasNoQuote(s, i);
        assert s[..i] == "\\";
      } else {
        QuoteIsEscaped(s[k..], i - k);
        assert s[..i][k..] == s[k..][..i - k];
      }
    }
  }

  lemma HexOnly(s: string, from: nat, to: nat)
    requires from <= to <= |s| && CodePoint(s[from..to]).Some?
    ensures forall j :: from <= j < to ==> s[j] != '"'
  {
    forall j | from <= j < to ensures s[j] != '"' {
      assert Hex(s[from..to][j - from]);
    }
  }

  lemma UnicodeHasNoQuote(s: string, i: nat)
    requires LiteralBody(s) && s != "" && !Bare(s[0]) && i < |s| && s[i] == '"'
    requires i < if s[1] == 'u' then 6 else if s[1] == 'U' then 10 else 2
    ensures i == 1
  {
    if s[1] == 'u' { HexOnly(s, 2, 6); } else if s[1] == 'U' { HexOnly(s, 2, 10); }
  }

  /** Escaped text can neither close its literal nor be confused with other text. */
  lemma EscapedStaysInside(s: string, t: string)
    ensures forall i :: 0 <= i < |EscapeLiteral(s)| && EscapeLiteral(s)[i] == '"' ==>
      i > 0 && !LiteralBody(EscapeLiteral(s)[..i])
    ensures EscapeLiteral(s) == EscapeLiteral(t) <==> Kept(s) == Kept(t)
  {
    RoundTrip(s);
    RoundTrip(t);
    forall i | 0 <= i < |EscapeLiteral(s)| && EscapeLiteral(s)[i] == '"'
      ensures i > 0 && !LiteralBody(EscapeLiteral(s)[..i])
    {
      QuoteIsEscaped(EscapeLiteral(s), i);
    }
    if Kept(s) == Kept(t) {
      SequentialIsPerCharacter(s);
      SequentialIsPerCharacter(t);
      EscapeKept(s);
      EscapeKept(t);
    }
  }

  lemma {:induction false} EscapeKept(s: string)
    ensures EscapeEach(s) == EscapeEach(Kept(s))
  {
    if s != "" {
      EscapeKept(s[1..]);
      var k := Kept(s);
      if k != Kept(s[1..]) { assert k == [s[0]] + Kept(s[1..]) && k[1..] == Kept(s[1..]); }
    }
  }
}
