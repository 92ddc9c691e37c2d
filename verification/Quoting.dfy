/**
 Go's `%q`: a string between double quotes, with everything that could be mistaken for the closing
 quote escaped. Which characters print as themselves is a table of the Go library, taken here as a
 parameter: the results hold for every table.
 */
module Quoting {

  function Digit(d: nat): char
    requires d < 16
  {
    if d < 10 then ('0' as int + d) as char else ('a' as int + (d - 10)) as char
  }

  /** The last `width` hexadecimal digits of `n`. */
  function Hex(n: nat, width: nat): (r: string)
    ensures |r| == width
  {
    if width == 0 then "" else Hex(n / 16, width - 1) + [Digit(n % 16)]
  }

  function Pow16(e: nat): nat {
    if e == 0 then 1 else 16 * Pow16(e - 1)
  }

  lemma {:induction false} HexInjective(m: nat, n: nat, width: nat)
    requires m < Pow16(width) && n < Pow16(width)
    requires Hex(m, width) == Hex(n, width)
    ensures m == n
  {
    if width > 0 {
      var a, b := Hex(m / 16, width - 1), Hex(n / 16, width - 1);
      assert a == Hex(m, width)[..width - 1] && b == Hex(n, width)[..width - 1];
      assert Hex(m, width)[width - 1] == Digit(m % 16) && Hex(n, width)[width - 1] == Digit(n % 16);
      HexInjective(m / 16, n / 16, width - 1);
    }
  }

  /** The letter after the backslash, and how many hexadecimal digits follow it. */
  function EscapeLetter(c: char): (char, nat) {
    if c == '"' || c == '\\' then (c, 0)
    else if c as int == 7 then ('a', 0)
    else if c as int == 8 then ('b', 0)
    else if c as int == 12 then ('f', 0)
    else if c as int == 10 then ('n', 0)
    else if c as int == 13 then ('r', 0)
    else if c as int == 9 then ('t', 0)
    else if c as int == 11 then ('v', 0)
    else if c as int < 32 || c as int == 127 then ('x', 2)
    else if c as int < 0x10000 then ('u', 4)
    else ('U', 8)
  }

  predicate NeedsEscape(printable: char -> bool, c: char) {
    c == '"' || c == '\\' || !printable(c)
  }

  function QuoteRune(printable: char -> bool, c: char): (r: string)
    ensures |r| > 0 && r[0] != '"'
  {
    if NeedsEscape(printable, c) then
      var (letter, width) := EscapeLetter(c);
      ['\\', letter] + Hex(c as int, width)
    else [c]
  }

  function Body(printable: char -> bool, s: string): string {
    if s == "" then "" else QuoteRune(printable, s[0]) + Body(printable, s[1..])
  }

  function Quote(printable: char -> bool, s: string): string {
    "\"" + Body(printable, s) + "\""
  }

  lemma HexFits(c: char)
    ensures var (_, width) := EscapeLetter(c); width > 0 ==> c as int < Pow16(width)
  {
    assert Pow16(2) == 256 by { assert Pow16(1) == 16; }
    assert Pow16(4) == 65536 by { assert Pow16(3) == 16 * Pow16(2); }
    assert Pow16(8) == 65536 * 65536 by {
      assert Pow16(5) == 16 * Pow16(4);
      assert Pow16(6) == 16 * Pow16(5);
      assert Pow16(7) == 16 * Pow16(6);
    }
  }

  /** Two escapes with the same letter and the same digits escape the same character. */
  lemma EscapeIdentifies(c: char, d: char)
    requires EscapeLetter(c).0 == EscapeLetter(d).0
    requires Hex(c as int, EscapeLetter(c).1) == Hex(d as int, EscapeLetter(d).1)
    ensures c == d
  {
    var width := EscapeLetter(c).1;
    assert width == EscapeLetter(d).1;
    if width > 0 {
      HexFits(c);
      HexFits(d);
      HexInjective(c as int, d as int, width);
    }
  }

  /** No escaped character is a proper prefix of another one. */
  lemma RuneCancels(printable: char -> bool, c: char, d: char, x: string, y: string)
    requires QuoteRune(printable, c) + x == QuoteRune(printable, d) + y
    ensures c == d && x == y
  {
    var p, q := QuoteRune(printable, c), QuoteRune(printable, d);
    var s := p + x;
    assert s[0] == p[0] == q[0];
    if NeedsEscape(printable, c) {
      assert s[1] == p[1] == (q + y)[1];
      assert NeedsEscape(printable, d);
      assert q[1] == EscapeLetter(d).0;
      var width := EscapeLetter(c).1;
      assert EscapeLetter(d).1 == width;
      assert Hex(c as int, width) == s[2..2 + width];
      assert Hex(d as int, width) == (q + y)[2..2 + width];
      EscapeIdentifies(c, d);
    }
    assert x == s[|p|..] && y == (q + y)[|q|..];
  }

  lemma ClosingQuoteFirst(printable: char -> bool, s: string, x: string)
    ensures (Body(printable, s) + "\"" + x)[0] == '"' <==> s == ""
  {
    if s != "" {
      assert Body(printable, s)[0] == QuoteRune(printable, s[0])[0];
    }
  }

  lemma BodyFront(printable: char -> bool, s: string, x: string)
    requires s != ""
    ensures Body(printable, s) + "\"" + x == QuoteRune(printable, s[0]) + (Body(printable, s[1..]) + "\"" + x)
  {
    hide QuoteRune;
  }

  lemma SplitHead(s: string)
    requires s != ""
    ensures s == [s[0]] + s[1..]
  {
  }

  lemma {:induction false} BodyCancels(printable: char -> bool, a: string, b: string, x: string, y: string)
    requires Body(printable, a) + "\"" + x == Body(printable, b) + "\"" + y
    ensures a == b && x == y
    decreases |a|
  {
    hide QuoteRune;
    ClosingQuoteFirst(printable, a, x);
    ClosingQuoteFirst(printable, b, y);
    if a == "" {
      assert x == (Body(printable, a) + "\"" + x)[1..];
      assert y == (Body(printable, b) + "\"" + y)[1..];
    } else {
      BodyFront(printable, a, x);
      BodyFront(printable, b, y);
      RuneCancels(printable, a[0], b[0], Body(printable, a[1..]) + "\"" + x, Body(printable, b[1..]) + "\"" + y);
      BodyCancels(printable, a[1..], b[1..], x, y);
      SplitHead(a);
      SplitHead(b);
    }
  }

  /** A quoted string can be read off the front of any text in one way only. */
  lemma QuoteCancels(printable: char -> bool, a: string, b: string, x: string, y: string)
    requires Quote(printable, a) + x == Quote(printable, b) + y
    ensures a == b && x == y
  {
    var s := Quote(printable, a) + x;
    assert s[1..] == Body(printable, a) + "\"" + x;
    assert (Quote(printable, b) + y)[1..] == Body(printable, b) + "\"" + y;
    BodyCancels(printable, a, b, x, y);
  }
}
