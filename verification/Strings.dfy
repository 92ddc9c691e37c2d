/** The string helpers the operator uses on DNS names. */
module Strings {
  function TrimDot(s: string): string {
    if |s| > 0 && s[|s| - 1] == '.' then s[..|s| - 1] else s
  }

  /** The absolute form of a name: exactly one final dot is added or kept. */
  function Dotted(s: string): string {
    TrimDot(s) + "."
  }

  function LowerChar(c: char): char {
    if 'A' <= c <= 'Z' then (c as int + 32) as char else c
  }

  function Lower(s: string): (r: string)
    ensures |r| == |s|
    ensures forall i :: 0 <= i < |s| ==> r[i] == LowerChar(s[i])
  {
    seq(|s|, i requires 0 <= i < |s| => LowerChar(s[i]))
  }

  /** Case and final dot removed from the comparison (section 2.3.3 of RFC 1035). */
  function NormalizeDnsName(name: string): string {
    Lower(TrimDot(name)) + "."
  }

  function Join(values: seq<string>, separator: string): string {
    if |values| == 0 then ""
    else if |values| == 1 then values[0]
    else values[0] + separator + Join(values[1..], separator)
  }

  const ESCAPED_ASTERISK := "\\052"

  /** Route 53 returns the asterisk of a wildcard as `\052`. */
  function Escape(s: string): string {
    if s == "" then ""
    else (if s[0] == '*' then ESCAPED_ASTERISK else [s[0]]) + Escape(s[1..])
  }

  /** Every `\052` replaced by an asterisk, leftmost first. */
  function Unescape(s: string): string
    decreases |s|
  {
    if s == "" then ""
    else if ESCAPED_ASTERISK <= s then "*" + Unescape(s[4..])
    else [s[0]] + Unescape(s[1..])
  }

  /** The name under which Route 53 stores what a caller calls `name`. */
  function Canonical(name: string): string {
    Escape(Lower(Dotted(name)))
  }

  /** A name that Route 53 stores as it is, up to the final dot. */
  predicate Plain(name: string) {
    Canonical(name) == Dotted(name)
  }

  lemma {:induction false} EscapeAppend(a: string, b: string)
    ensures Escape(a + b) == Escape(a) + Escape(b)
  {
    if a == "" {
      assert a + b == b;
    } else {
      EscapeAppend(a[1..], b);
      assert (a + b)[1..] == a[1..] + b;
    }
  }

  /** Without an asterisk in the stored form, unescaping loses nothing. */
  lemma {:induction false} EscapeUnescape(s: string)
    requires '*' !in s
    ensures Escape(Unescape(s)) == s
    decreases |s|
  {
    if s == "" {
    } else if ESCAPED_ASTERISK <= s {
      EscapeUnescape(s[4..]);
      assert ("*" + Unescape(s[4..]))[1..] == Unescape(s[4..]);
      assert s == ESCAPED_ASTERISK + s[4..];
    } else {
      EscapeUnescape(s[1..]);
      assert ([s[0]] + Unescape(s[1..]))[1..] == Unescape(s[1..]);
      assert s == [s[0]] + s[1..];
    }
  }

  lemma {:induction false} EscapedHasNoAsterisk(s: string)
    ensures '*' !in Escape(s)
  {
    if s != "" {
      EscapedHasNoAsterisk(s[1..]);
    }
  }

  lemma {:induction false} EscapeKeepsPlainText(s: string)
    requires '*' !in s
    ensures Escape(s) == s
  {
    if s != "" {
      assert s[0] in s;
      assert forall c :: c in s[1..] ==> c in s;
      EscapeKeepsPlainText(s[1..]);
    }
  }

  lemma EscapeEndsWithDot(s: string)
    ensures Escape(s + ".") == Escape(s) + "."
  {
    EscapeAppend(s, ".");
    assert Escape(".") == "." + Escape("");
  }

  lemma {:induction false} EscapeOfLowerIsLower(s: string)
    ensures Lower(Escape(Lower(s))) == Escape(Lower(s))
  {
    if s != "" {
      EscapeOfLowerIsLower(s[1..]);
      assert Lower(s)[1..] == Lower(s[1..]);
      var head := if Lower(s)[0] == '*' then ESCAPED_ASTERISK else [Lower(s)[0]];
      assert Lower(head) == head;
      assert Lower(head + Escape(Lower(s[1..]))) == Lower(head) + Lower(Escape(Lower(s[1..])));
    }
  }

  /** Storing a stored name changes nothing. */
  lemma CanonicalIsStable(name: string)
    ensures Canonical(Canonical(name)) == Canonical(name)
    ensures '*' !in Canonical(name)
    ensures |Canonical(name)| > 0 && Dotted(Canonical(name)) == Canonical(name)
  {
    var body := Lower(TrimDot(name));
    assert Lower(Dotted(name)) == body + ".";
    EscapeEndsWithDot(body);
    var c := Escape(body) + ".";
    assert c == Canonical(name);
    assert Dotted(c) == c by {
      assert c[..|c| - 1] == Escape(body);
    }
    EscapeOfLowerIsLower(Dotted(name));
    EscapedHasNoAsterisk(Lower(Dotted(name)));
    EscapeKeepsPlainText(Canonical(name));
  }

  /** The comparison of `DeleteDnsRecord` recognises exactly the stored form of a lower-case name. */
  lemma UnescapedNameMatchesIff(stored: string, name: string)
    requires '*' !in stored
    ensures Unescape(stored) == Dotted(name) ==> stored == Escape(Dotted(name))
    ensures '\\' !in name && stored == Escape(Dotted(name)) ==> Unescape(stored) == Dotted(name)
  {
    EscapeUnescape(stored);
    if '\\' !in name {
      UnescapeEscape(Dotted(name));
    }
  }

  lemma {:induction false} UnescapeEscape(s: string)
    requires '\\' !in s
    ensures Unescape(Escape(s)) == s
  {
    if s != "" {
      assert s[0] in s;
      assert forall c :: c in s[1..] ==> c in s;
      UnescapeEscape(s[1..]);
      var rest := Escape(s[1..]);
      if s[0] == '*' {
        assert Escape(s) == ESCAPED_ASTERISK + rest;
        assert Escape(s)[4..] == rest;
      } else {
        assert Escape(s) == [s[0]] + rest;
        assert Escape(s)[1..] == rest;
      }
    }
  }
}
