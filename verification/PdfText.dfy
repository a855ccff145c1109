/** Text runs of the hand-written PDF (internal/invoice/pdf.go): what `pdfEscape` emits, and a reader of
    literal strings after section 7.3.4.2 of ISO 32000-1. */
module PdfText {
  import opened Options

  /** What a character becomes once the viewer has read the string back. */
  function SanitizeChar(c: char): string {
    if c == '\U{00B7}' then " - "
    else if c == '\U{2026}' then "..."
    else if c < ' ' || c > '~' then " "
    else [c]
  }

  function EscapeChar(c: char): string {
    if c == '(' || c == ')' || c == '\\' then ['\\', c] else SanitizeChar(c)
  }

  function Sanitize(s: string): string {
    if s == "" then "" else SanitizeChar(s[0]) + Sanitize(s[1..])
  }

  function EscapeBody(s: string): string {
    if s == "" then "" else EscapeChar(s[0]) + EscapeBody(s[1..])
  }

  /** The show operator for one run. */
  method PdfEscape(s: string) returns (b: string)
    ensures b == "(" + EscapeBody(s) + ")" + " Tj"
  {
    b := "(";
    assert EscapeBody(s[..0]) == "";
    hide EscapeBody, EscapeChar;
    for i := 0 to |s|
      invariant b == "(" + EscapeBody(s[..i])
    {
      var r := s[i];
      EscapeSnoc(s[..i], r);
      assert s[..i + 1] == s[..i] + [r];
      b := WriteRune(b, r);
    }
    assert s[..|s|] == s;
    b := b + ")";
    b := b + " Tj";
  }

  /** The body of that loop. */
  method WriteRune(before: string, r: char) returns (b: string)
    ensures b == before + EscapeChar(r)
  {
    b := before;
    if r == '(' || r == ')' || r == '\\' {
      b := b + ['\\'];
      b := b + [r];
    } else if r < ' ' || r > '~' {
      if r == '\U{00B7}' {
        b := b + " - ";
      } else if r == '\U{2026}' {
        b := b + "...";
      } else {
        b := b + " ";
      }
    } else {
      b := b + [r];
    }
  }

  lemma {:induction false} EscapeSnoc(s: string, c: char)
    ensures EscapeBody(s + [c]) == EscapeBody(s) + EscapeChar(c)
  {
    if s == "" {
      assert (s + [c])[1..] == "";
      assert EscapeBody(s + [c]) == EscapeChar(c) + EscapeBody("");
    } else {
      assert (s + [c])[1..] == s[1..] + [c];
      EscapeSnoc(s[1..], c);
    }
  }

  // ----- Reading a literal string -----

  predicate Octal(c: char) {
    '0' <= c <= '7'
  }

  function OctalValue(c: char): nat
    requires Octal(c)
  {
    c as int - '0' as int
  }

  /** How many of at most `limit` leading characters are octal digits. */
  function OctalRun(s: string, limit: nat): (n: nat)
    ensures n <= |s| && n <= limit
    ensures forall i :: 0 <= i < n ==> Octal(s[i])
    ensures 0 < limit && s != "" && Octal(s[0]) ==> 0 < n
  {
    if limit == 0 || s == "" || !Octal(s[0]) then 0 else 1 + OctalRun(s[1..], limit - 1)
  }

  function OctalNumber(s: string): nat
    requires forall i :: 0 <= i < |s| ==> Octal(s[i])
  {
    if s == "" then 0 else 8 * OctalNumber(s[..|s| - 1]) + OctalValue(s[|s| - 1])
  }

  /** One escape sequence: `s` starts after the backslash. The characters it stands for (high-order
      overflow of an octal code ignored) and how many characters it took. */
  function ReadEscape(s: string): (r: (string, nat))
    requires s != ""
    ensures 1 <= r.1 <= |s|
  {
    var d := s[0];
    if d == 'n' then ("\n", 1)
    else if d == 'r' then ("\r", 1)
    else if d == 't' then ("\t", 1)
    else if d == 'b' then ([8 as char], 1)
    else if d == 'f' then ([12 as char], 1)
    else if d == '\r' then ("", if |s| > 1 && s[1] == '\n' then 2 else 1)
    else if d == '\n' then ("", 1)
    else if Octal(d) then
      var n := OctalRun(s, 3);
      ([(OctalNumber(s[..n]) % 256) as char], n)
    else ([d], 1)
  }

  /** Reads up to the parenthesis that closes the string: the text and what follows. `depth` counts the
      unescaped parentheses still open inside. */
  function ReadLiteral(s: string, depth: nat): Option<(string, string)>
    decreases |s|
  {
    if s == "" then None
    else if s[0] == ')' && depth == 0 then Some(("", s[1..]))
    else
      var (text, taken) :=
        if s[0] == '\\' && |s| > 1 then (var (t, n) := ReadEscape(s[1..]); (t, n + 1))
        else if s[0] == '\r' then ("\n", if |s| > 1 && s[1] == '\n' then 2 else 1)
        else ([s[0]], 1);
      var inside := if s[0] == '(' then depth + 1 else if s[0] == ')' then depth - 1 else depth;
      match ReadLiteral(s[taken..], inside)
      case None => None
      case Some((rest, after)) => Some((text + rest, after))
  }

  predicate Printable(s: string) {
    forall i :: 0 <= i < |s| ==> ' ' <= s[i] <= '~'
  }

  predicate Plain(c: char) {
    ' ' <= c <= '~' && c != '(' && c != ')' && c != '\\'
  }

  lemma ReadPlain(c: char, rest: string)
    requires Plain(c) && ReadLiteral(rest, 0).Some?
    ensures var (text, after) := ReadLiteral(rest, 0).value;
            ReadLiteral([c] + rest, 0) == Some(([c] + text, after))
  {
    assert ([c] + rest)[1..] == rest;
  }

  lemma ReadEscaped(c: char, rest: string)
    requires c == '(' || c == ')' || c == '\\'
    requires ReadLiteral(rest, 0).Some?
    ensures var (text, after) := ReadLiteral(rest, 0).value;
            ReadLiteral(['\\', c] + rest, 0) == Some(([c] + text, after))
  {
    var s := ['\\', c] + rest;
    assert s[1..] == [c] + rest && s[2..] == rest;
  }

  lemma ReadThree(e: string, rest: string)
    requires |e| == 3 && Plain(e[0]) && Plain(e[1]) && Plain(e[2])
    requires ReadLiteral(rest, 0).Some?
    ensures var (text, after) := ReadLiteral(rest, 0).value;
            ReadLiteral(e + rest, 0) == Some((e + text, after))
  {
    var (text, after) := ReadLiteral(rest, 0).value;
    ReadPlain(e[2], rest);
    ReadPlain(e[1], [e[2]] + rest);
    ReadPlain(e[0], [e[1]] + ([e[2]] + rest));
    assert [e[0]] + ([e[1]] + ([e[2]] + rest)) == e + rest;
    assert [e[0]] + ([e[1]] + ([e[2]] + text)) == e + text;
  }

  lemma ReadOne(c: char, rest: string)
    requires ReadLiteral(rest, 0).Some?
    ensures var (text, after) := ReadLiteral(rest, 0).value;
            ReadLiteral(EscapeChar(c) + rest, 0) == Some((SanitizeChar(c) + text, after))
  {
    var (text, after) := ReadLiteral(rest, 0).value;
    if c == '(' || c == ')' || c == '\\' {
      ReadEscaped(c, rest);
    } else if c == '\U{00B7}' || c == '\U{2026}' {
      ReadThree(EscapeChar(c), rest);
    } else {
      ReadPlain(EscapeChar(c)[0], rest);
      assert [EscapeChar(c)[0]] == EscapeChar(c);
    }
  }

  /** For every text whatsoever, a reader of the emitted string stops exactly at its closing parenthesis
      and has read the sanitized text: nothing in the text can unbalance what follows. */
  lemma {:induction false} EscapeReadsBack(s: string, after: string)
    ensures ReadLiteral(EscapeBody(s) + ")" + after, 0) == Some((Sanitize(s), after))
  {
    if s == "" {
      assert EscapeBody(s) + ")" + after == [')'] + after;
      assert ([')'] + after)[1..] == after;
    } else {
      EscapeReadsBack(s[1..], after);
      ReadOne(s[0], EscapeBody(s[1..]) + ")" + after);
      assert EscapeChar(s[0]) + (EscapeBody(s[1..]) + ")" + after) == EscapeBody(s) + ")" + after;
    }
  }

  /** What each character becomes: the middle dot a spaced dash, the ellipsis three dots, printable ASCII itself,
      and anything else a space; and the text becomes that character by character. */
  lemma {:induction false} WhatIsShown(s: string, c: char)
    ensures Sanitize("") == "" && Sanitize(s + [c]) == Sanitize(s) + Sanitize([c])
    ensures Sanitize([c]) == if c == '\U{00B7}' then " - "
                             else if c == '\U{2026}' then "..."
                             else if ' ' <= c <= '~' then [c]
                             else " "
  {
    OneShown(c);
    assert SanitizeChar(c) == (if c == '\U{00B7}' then " - " else if c == '\U{2026}' then "..."
                               else if ' ' <= c <= '~' then [c] else " ");
    hide SanitizeChar;
    if s == "" {
      assert s + [c] == [c];
    } else {
      WhatIsShown(s[1..], c);
      assert (s + [c])[1..] == s[1..] + [c];
    }
  }

  lemma OneShown(c: char)
    ensures Sanitize("") == "" && Sanitize([c]) == SanitizeChar(c)
  {
    assert [c][1..] == "";
    hide SanitizeChar;
    assert Sanitize([c]) == SanitizeChar(c) + Sanitize("");
  }

  /** The sanitized text is printable, and printable text is its own sanitized form. */
  lemma {:induction false} SanitizedIsPrintable(s: string)
    ensures Printable(Sanitize(s))
    ensures Printable(s) ==> Sanitize(s) == s
    ensures |s| <= |Sanitize(s)| <= 3 * |s|
  {
    if s != "" {
      SanitizedIsPrintable(s[1..]);
      assert s == [s[0]] + s[1..];
      assert Printable(s) ==> Printable(s[1..]);
    }
  }
}
