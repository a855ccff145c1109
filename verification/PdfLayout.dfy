/** Line breaking in the PDF writer (internal/invoice/pdf.go). Widths are exact: ten-thousandths of an
    em, so that the bold factor 1.06 stays whole; sizes and limits are in the same scaled unit. */
module PdfLayout {

  /** Font size, width limit and weight of a text box. */
  datatype Box = Box(size: nat, maxW: int, bold: bool)

  function GlyphWidth(r: char, bold: bool): (w: nat)
    ensures 0 < w
  {
    var w :=
      if r == ' ' then 28
      else if r in {'I', 'i', 'l', 'j', 'f', 't', '.', ','} then 28
      else if r in {'m', 'M', 'W', 'w'} then 83
      else if '0' <= r <= '9' then 56
      else if 'A' <= r <= 'Z' then 67
      else if 'a' <= r <= 'z' then 52
      else 55;
    if bold then w * 106 else w * 100
  }

  function TextWidth(s: string, b: Box): nat {
    if s == "" then 0 else GlyphWidth(s[0], b.bold) * b.size + TextWidth(s[1..], b)
  }

  predicate Fits(s: string, b: Box) {
    TextWidth(s, b) <= b.maxW
  }

  lemma {:induction false} WidthAppend(s: string, t: string, b: Box)
    ensures TextWidth(s + t, b) == TextWidth(s, b) + TextWidth(t, b)
  {
    if s == "" {
      assert s + t == t;
    } else {
      assert (s + t)[1..] == s[1..] + t;
      WidthAppend(s[1..], t, b);
    }
  }

  // ----- Breaking one long word -----

  /** Lines of a word too wide for the box, `cur` being the line under construction. */
  function Break(s: string, cur: string, b: Box): seq<string> {
    if s == "" then (if cur == "" then [] else [cur])
    else if Fits(cur + [s[0]], b) then Break(s[1..], cur + [s[0]], b)
    else (if cur == "" then [] else [cur]) + Break(s[1..], [s[0]], b)
  }

  method BreakLongToken(s: string, b: Box) returns (out: seq<string>)
    ensures out == Break(s, "", b)
  {
    out := [];
    var cur := "";
    for i := 0 to |s|
      invariant out + Break(s[i..], cur, b) == Break(s, "", b)
    {
      var next := cur + [s[i]];
      assert s[i..][1..] == s[i + 1..];
      ghost var was := out;
      if Fits(next, b) {
        cur := next;
      } else {
        if |cur| > 0 {
          out := out + [cur];
          assert out + Break(s[i + 1..], [s[i]], b) == was + ([cur] + Break(s[i + 1..], [s[i]], b));
        } else {
          assert [] + Break(s[i + 1..], [s[i]], b) == Break(s[i + 1..], [s[i]], b);
        }
        cur := [s[i]];
      }
    }
    if |cur| > 0 {
      out := out + [cur];
    } else {
      assert out + [] == out;
    }
  }

  // ----- Greedy filling of one paragraph -----

  function Joined(cur: string, w: string): string {
    if cur == "" then w else cur + " " + w
  }

  /** Lines of the remaining words, `cur` being the line under construction. */
  function Fill(words: seq<string>, cur: string, b: Box): seq<string> {
    if words == [] then (if cur == "" then [] else [cur])
    else
      var w := words[0];
      if Fits(Joined(cur, w), b) then Fill(words[1..], Joined(cur, w), b)
      else
        (if cur == "" then [] else [cur]) +
        if Fits(w, b) then Fill(words[1..], w, b) else Break(w, "", b) + Fill(words[1..], "", b)
  }

  // ----- White space -----

  /** `unicode.IsSpace`. */
  predicate IsSpace(c: char) {
    '\t' <= c <= '\r' || c == ' ' || c == '\U{0085}' || c == '\U{00A0}' || c == '\U{1680}'
    || '\U{2000}' <= c <= '\U{200A}' || c == '\U{2028}' || c == '\U{2029}' || c == '\U{202F}'
    || c == '\U{205F}' || c == '\U{3000}'
  }

  /** The characters that are not white space, in order. */
  function Ink(s: string): string {
    if s == "" then "" else if IsSpace(s[0]) then Ink(s[1..]) else [s[0]] + Ink(s[1..])
  }

  function InkOf(lines: seq<string>): string {
    if lines == [] then "" else Ink(lines[0]) + InkOf(lines[1..])
  }

  /** `strings.Fields`, `cur` being the word under construction. */
  function Fields(s: string, cur: string): seq<string> {
    if s == "" then (if cur == "" then [] else [cur])
    else if IsSpace(s[0]) then (if cur == "" then [] else [cur]) + Fields(s[1..], "")
    else Fields(s[1..], cur + [s[0]])
  }

  /** `strings.Split(s, "\n")`, `cur` being the part under construction. */
  function Split(s: string, cur: string): seq<string> {
    if s == "" then [cur]
    else if s[0] == '\n' then [cur] + Split(s[1..], "")
    else Split(s[1..], cur + [s[0]])
  }

  function TrimLeft(s: string): string {
    if s != "" && IsSpace(s[0]) then TrimLeft(s[1..]) else s
  }

  function TrimRight(s: string): string {
    if s != "" && IsSpace(s[|s| - 1]) then TrimRight(s[..|s| - 1]) else s
  }

  function TrimSpace(s: string): string {
    TrimRight(TrimLeft(s))
  }

  function FillAll(paras: seq<string>, b: Box): seq<string> {
    if paras == [] then [] else Fill(Fields(paras[0], ""), "", b) + FillAll(paras[1..], b)
  }

  function Wrap(text: string, b: Box): seq<string> {
    var s := TrimSpace(text);
    if s == "" then [] else if b.maxW <= 0 then [s] else FillAll(Split(s, ""), b)
  }

  method WrapToWidth(text: string, b: Box) returns (out: seq<string>)
    ensures out == Wrap(text, b)
  {
    var s := TrimSpace(text);
    if s == "" || b.maxW <= 0 {
      if s == "" {
        return [];
      }
      return [s];
    }
    out := [];
    var paras := Split(s, "");
    for p := 0 to |paras|
      invariant out + FillAll(paras[p..], b) == FillAll(paras, b)
    {
      var words := Fields(paras[p], "");
      var lines := FillParagraph(words, b);
      OneMoreParagraph(paras, p, out, b);
      out := out + lines;
    }
    assert out + [] == out;
  }

  lemma OneMoreParagraph(paras: seq<string>, p: nat, out: seq<string>, b: Box)
    requires p < |paras|
    ensures out + FillAll(paras[p..], b) == (out + Fill(Fields(paras[p], ""), "", b)) + FillAll(paras[p + 1..], b)
  {
    hide Fill, Fields;
    assert paras[p..][1..] == paras[p + 1..];
  }

  /** Lines finished by, and line left after, one more word. */
  function Finished(w: string, cur: string, b: Box): seq<string> {
    if Fits(Joined(cur, w), b) then []
    else (if cur == "" then [] else [cur]) + if Fits(w, b) then [] else Break(w, "", b)
  }

  function Left(w: string, cur: string, b: Box): string {
    if Fits(Joined(cur, w), b) then Joined(cur, w) else if Fits(w, b) then w else ""
  }

  lemma FillStep(words: seq<string>, cur: string, b: Box, out: seq<string>)
    requires words != []
    ensures out + Fill(words, cur, b)
         == (out + Finished(words[0], cur, b)) + Fill(words[1..], Left(words[0], cur, b), b)
  {
    hide Fits, Joined, Break;
    var w := words[0];
    var rest := Fill(words[1..], Left(w, cur, b), b);
    assert Fill(words, cur, b) == Finished(w, cur, b) + rest;
    assert out + (Finished(w, cur, b) + rest) == (out + Finished(w, cur, b)) + rest;
  }

  /** The inner loop over the words of one paragraph. */
  method FillParagraph(words: seq<string>, b: Box) returns (out: seq<string>)
    ensures out == Fill(words, "", b)
  {
    out := [];
    var cur := "";
    for i := 0 to |words|
      invariant out + Fill(words[i..], cur, b) == Fill(words, "", b)
    {
      var w := words[i];
      FillStep(words[i..], cur, b, out);
      assert words[i..][1..] == words[i + 1..];
      out, cur := OneWord(w, cur, b, out);
    }
    if cur != "" {
      out := out + [cur];
    } else {
      assert out + [] == out;
    }
  }

  /** The body of that loop. */
  method OneWord(w: string, cur: string, b: Box, done: seq<string>) returns (out: seq<string>, left: string)
    ensures out == done + Finished(w, cur, b) && left == Left(w, cur, b)
  {
    out := done;
    var next := w;
    if cur != "" {
      next := cur + " " + w;
    }
    if Fits(next, b) {
      assert out == done + [];
      return out, next;
    }
    if cur != "" {
      out := out + [cur];
    }
    if Fits(w, b) {
      left := w;
    } else {
      var pieces := BreakLongToken(w, b);
      out := out + pieces;
      left := "";
    }
  }

  // ----- Nothing is lost -----

  lemma {:induction false} InkAppend(s: string, t: string)
    ensures Ink(s + t) == Ink(s) + Ink(t)
  {
    if s == "" {
      assert s + t == t;
    } else {
      assert (s + t)[1..] == s[1..] + t;
      InkAppend(s[1..], t);
    }
  }

  lemma {:induction false} InkOfAppend(a: seq<string>, c: seq<string>)
    ensures InkOf(a + c) == InkOf(a) + InkOf(c)
  {
    if a == [] {
      assert a + c == c;
    } else {
      assert (a + c)[1..] == a[1..] + c;
      InkOfAppend(a[1..], c);
    }
  }

  lemma InkOfOne(s: string)
    ensures InkOf([s]) == Ink(s)
  {
    assert [s][1..] == [];
  }

  lemma {:induction false} BreakKeepsInk(s: string, cur: string, b: Box)
    ensures InkOf(Break(s, cur, b)) == Ink(cur) + Ink(s)
  {
    InkOfOne(cur);
    assert Ink("") == "";
    hide Fits, Ink, InkOf;
    if s != "" {
      assert s == [s[0]] + s[1..];
      InkAppend([s[0]], s[1..]);
      InkAppend(cur, [s[0]]);
      BreakKeepsInk(s[1..], cur + [s[0]], b);
      BreakKeepsInk(s[1..], [s[0]], b);
      InkOfAppend(if cur == "" then [] else [cur], Break(s[1..], [s[0]], b));
    }
  }

  lemma InkOfJoined(cur: string, w: string)
    ensures Ink(Joined(cur, w)) == Ink(cur) + Ink(w)
  {
    assert Ink(" ") == "" && Ink("") == "";
    hide Ink;
    InkAppend(cur + " ", w);
    InkAppend(cur, " ");
  }

  lemma Regroup(done: string, left: string, cur: string, w: string, tail: string)
    requires done + left == cur + w
    ensures done + (left + tail) == cur + (w + tail)
  {
    assert done + (left + tail) == (done + left) + tail;
    assert (cur + w) + tail == cur + (w + tail);
  }

  lemma {:induction false} FillKeepsInk(words: seq<string>, cur: string, b: Box)
    ensures InkOf(Fill(words, cur, b)) == Ink(cur) + InkOf(words)
    decreases |words|
  {
    if words == [] {
      InkOfOne(cur);
    } else {
      var w, left := words[0], Left(words[0], cur, b);
      FillKeepsInk(words[1..], left, b);
      FillUnfolds(words, cur, b);
      InkOfAppend(Finished(w, cur, b), Fill(words[1..], left, b));
      FinishedKeepsInk(w, cur, b);
      Regroup(InkOf(Finished(w, cur, b)), Ink(left), Ink(cur), Ink(w), InkOf(words[1..]));
    }
  }

  lemma FillUnfolds(words: seq<string>, cur: string, b: Box)
    requires words != []
    ensures Fill(words, cur, b) == Finished(words[0], cur, b) + Fill(words[1..], Left(words[0], cur, b), b)
  {
    FillStep(words, cur, b, []);
    assert [] + Fill(words, cur, b) == Fill(words, cur, b);
    assert [] + Finished(words[0], cur, b) == Finished(words[0], cur, b);
  }

  lemma FinishedKeepsInk(w: string, cur: string, b: Box)
    ensures InkOf(Finished(w, cur, b)) + Ink(Left(w, cur, b)) == Ink(cur) + Ink(w)
  {
    assert InkOf([]) == "" && Ink("") == "";
    hide Ink, InkOf, Break, Fits, Joined;
    InkOfOne(cur);
    InkOfJoined(cur, w);
    BreakKeepsInk(w, "", b);
    InkOfAppend(if cur == "" then [] else [cur], if Fits(w, b) then [] else Break(w, "", b));
  }

  lemma {:induction false} FieldsKeepInk(s: string, cur: string)
    ensures InkOf(Fields(s, cur)) == Ink(cur) + Ink(s)
  {
    InkOfOne(cur);
    if s != "" {
      assert s == [s[0]] + s[1..];
      InkAppend([s[0]], s[1..]);
      InkAppend(cur, [s[0]]);
      FieldsKeepInk(s[1..], "");
      FieldsKeepInk(s[1..], cur + [s[0]]);
      InkOfAppend(if cur == "" then [] else [cur], Fields(s[1..], ""));
    }
  }

  lemma {:induction false} SplitKeepsInk(s: string, cur: string)
    ensures InkOf(Split(s, cur)) == Ink(cur) + Ink(s)
  {
    InkOfOne(cur);
    if s != "" {
      assert s == [s[0]] + s[1..];
      InkAppend(cur, [s[0]]);
      SplitKeepsInk(s[1..], "");
      SplitKeepsInk(s[1..], cur + [s[0]]);
      InkOfAppend([cur], Split(s[1..], ""));
      InkAppend([s[0]], s[1..]);
    }
  }

  lemma {:induction false} TrimKeepsInk(s: string)
    ensures Ink(TrimLeft(s)) == Ink(s) && Ink(TrimRight(s)) == Ink(s)
    decreases |s|
  {
    if s != "" {
      var n := |s| - 1;
      TrimKeepsInk(s[1..]);
      TrimKeepsInk(s[..n]);
      assert s == s[..n] + [s[n]];
      InkAppend(s[..n], [s[n]]);
    }
  }

  lemma {:induction false} FillAllKeepsInk(paras: seq<string>, b: Box)
    ensures InkOf(FillAll(paras, b)) == InkOf(paras)
  {
    if paras != [] {
      FillAllKeepsInk(paras[1..], b);
      InkOfAppend(Fill(Fields(paras[0], ""), "", b), FillAll(paras[1..], b));
      FillKeepsInk(Fields(paras[0], ""), "", b);
      FieldsKeepInk(paras[0], "");
    }
  }

  /** Wrapping keeps every character that is not white space, in order, for any text and any box. */
  lemma WrapKeepsInk(text: string, b: Box)
    ensures InkOf(Wrap(text, b)) == Ink(text)
  {
    var s := TrimSpace(text);
    TrimKeepsInk(text);
    TrimKeepsInk(TrimLeft(text));
    InkOfOne(s);
    SplitKeepsInk(s, "");
    FillAllKeepsInk(Split(s, ""), b);
  }

  // ----- Lines fit -----

  /** A line fits, or is one character that is too wide by itself. */
  predicate GoodLine(line: string, b: Box) {
    line != "" && (Fits(line, b) || |line| == 1)
  }

  predicate GoodLines(lines: seq<string>, b: Box) {
    forall i :: 0 <= i < |lines| ==> GoodLine(lines[i], b)
  }

  lemma {:induction false} BreakGivesGoodLines(s: string, cur: string, b: Box)
    requires cur == "" || GoodLine(cur, b)
    ensures GoodLines(Break(s, cur, b), b)
  {
    if s != "" {
      if Fits(cur + [s[0]], b) {
        BreakGivesGoodLines(s[1..], cur + [s[0]], b);
      } else {
        BreakGivesGoodLines(s[1..], [s[0]], b);
      }
    }
  }

  lemma {:induction false} FillGivesGoodLines(words: seq<string>, cur: string, b: Box)
    requires cur == "" || Fits(cur, b)
    requires forall i :: 0 <= i < |words| ==> words[i] != ""
    ensures GoodLines(Fill(words, cur, b), b)
  {
    if words != [] {
      BreakGivesGoodLines(words[0], "", b);
      FillGivesGoodLines(words[1..], Left(words[0], cur, b), b);
    }
  }

  lemma {:induction false} FieldsNonEmpty(s: string, cur: string)
    ensures forall i :: 0 <= i < |Fields(s, cur)| ==> Fields(s, cur)[i] != ""
  {
    if s != "" {
      FieldsNonEmpty(s[1..], "");
      FieldsNonEmpty(s[1..], cur + [s[0]]);
    }
  }

  lemma {:induction false} FillAllGivesGoodLines(paras: seq<string>, b: Box)
    ensures GoodLines(FillAll(paras, b), b)
  {
    if paras != [] {
      FieldsNonEmpty(paras[0], "");
      FillGivesGoodLines(Fields(paras[0], ""), "", b);
      FillAllGivesGoodLines(paras[1..], b);
    }
  }

  /** Truncation with an ellipsis for a single line. */
  function FitText(s: string, b: Box): string {
    if b.maxW <= 0 || Fits(s, b) then s else Shorten(s, b)
  }

  function Shorten(r: string, b: Box): string {
    if |r| > 1 && !Fits(r + "\U{2026}", b) then Shorten(r[..|r| - 1], b)
    else if r == "" then "" else r + "\U{2026}"
  }

  method FitTextSized(s: string, b: Box) returns (out: string)
    ensures out == FitText(s, b)
  {
    if b.maxW <= 0 || Fits(s, b) {
      return s;
    }
    var r := s;
    while |r| > 1 && !Fits(r + "\U{2026}", b)
      invariant Shorten(r, b) == Shorten(s, b)
    {
      r := r[..|r| - 1];
    }
    if |r| == 0 {
      return "";
    }
    return r + "\U{2026}";
  }

  /** The longest prefix that fits with its ellipsis, or the first character when none does. */
  lemma {:induction false} ShortenKeepsTheMost(s: string, b: Box) returns (k: nat)
    requires s != ""
    ensures 1 <= k <= |s| && Shorten(s, b) == s[..k] + "\U{2026}"
    ensures k == 1 || Fits(Shorten(s, b), b)
    ensures forall j :: k < j <= |s| ==> !Fits(s[..j] + "\U{2026}", b)
    decreases |s|
  {
    var n := |s| - 1;
    assert s[..|s|] == s;
    if 0 < n && !Fits(s + "\U{2026}", b) {
      k := ShortenKeepsTheMost(s[..n], b);
      assert s[..n][..k] == s[..k];
      forall j | k < j <= |s|
        ensures !Fits(s[..j] + "\U{2026}", b)
      {
        if j <= n {
          assert s[..n][..j] == s[..j];
        }
      }
    } else {
      k := |s|;
    }
  }

  /** In a box with room at all, every wrapped line fits or is a single too-wide character; hence a
      wrapped line is drawn unshortened exactly when it fits. */
  lemma WrappedLinesAreDrawnWhole(text: string, b: Box)
    requires 0 < b.maxW
    ensures GoodLines(Wrap(text, b), b)
    ensures forall i :: 0 <= i < |Wrap(text, b)| ==>
              (FitText(Wrap(text, b)[i], b) == Wrap(text, b)[i] <==> TextWidth(Wrap(text, b)[i], b) <= b.maxW)
  {
    var lines := Wrap(text, b);
    FillAllGivesGoodLines(Split(TrimSpace(text), ""), b);
    forall i | 0 <= i < |lines|
      ensures FitText(lines[i], b) == lines[i] <==> Fits(lines[i], b)
    {
      assert GoodLine(lines[i], b);
      if !Fits(lines[i], b) {
        var k := ShortenKeepsTheMost(lines[i], b);
      }
    }
  }

  // ----- Greedy filling is optimal -----

  predicate AllFit(words: seq<string>, b: Box) {
    forall i :: 0 <= i < |words| ==> words[i] != "" && Fits(words[i], b)
  }

  /** Words of one line. */
  function JoinAll(words: seq<string>, cur: string): string {
    if words == [] then cur else JoinAll(words[1..], Joined(cur, words[0]))
  }

  function Concat(groups: seq<seq<string>>): seq<string> {
    if groups == [] then [] else groups[0] + Concat(groups[1..])
  }

  /** A way of breaking a paragraph: consecutive groups of words, each fitting on its line. */
  predicate IsLayout(groups: seq<seq<string>>, b: Box) {
    forall i :: 0 <= i < |groups| ==> groups[i] != [] && Fits(JoinAll(groups[i], ""), b)
  }

  /** Lines still to come from `cur` on. */
  function LinesFrom(words: seq<string>, cur: string, b: Box): nat {
    |Fill(words, cur, b)|
  }

  lemma JoinedWidth(cur: string, w: string, b: Box)
    ensures cur != "" ==> TextWidth(Joined(cur, w), b) == TextWidth(cur, b) + TextWidth(" ", b) + TextWidth(w, b)
    ensures TextWidth(w, b) <= TextWidth(Joined(cur, w), b)
    ensures TextWidth(cur, b) <= TextWidth(Joined(cur, w), b)
  {
    WidthAppend(cur + " ", w, b);
    WidthAppend(cur, " ", b);
  }

  /** A shorter current line never costs lines, an empty one costs at most one line less, and any two
      current lines differ by at most one. */
  lemma {:induction false} ShorterIsBetter(words: seq<string>, x: string, y: string, b: Box)
    requires AllFit(words, b) && x != "" && y != ""
    ensures TextWidth(x, b) <= TextWidth(y, b) ==> LinesFrom(words, x, b) <= LinesFrom(words, y, b)
    ensures LinesFrom(words, "", b) <= LinesFrom(words, x, b) <= 1 + LinesFrom(words, "", b)
    decreases |words|
  {
    if words != [] {
      var w, rest := words[0], words[1..];
      JoinedWidth(x, w, b);
      JoinedWidth(y, w, b);
      ShorterIsBetter(rest, Joined(x, w), Joined(y, w), b);
      ShorterIsBetter(rest, Joined(x, w), w, b);
      ShorterIsBetter(rest, w, Joined(x, w), b);
    }
  }

  /** Words that fit on one line together are put on the current line together. */
  lemma {:induction false} FillTakesGroup(group: seq<string>, rest: seq<string>, cur: string, b: Box)
    requires Fits(JoinAll(group, cur), b)
    ensures Fill(group + rest, cur, b) == Fill(rest, JoinAll(group, cur), b)
    decreases |group|
  {
    if group == [] {
      assert group + rest == rest;
    } else {
      assert (group + rest)[1..] == group[1..] + rest;
      JoinAllWidens(group[1..], Joined(cur, group[0]), b);
      FillTakesGroup(group[1..], rest, Joined(cur, group[0]), b);
    }
  }

  lemma {:induction false} JoinAllWidens(words: seq<string>, cur: string, b: Box)
    ensures TextWidth(cur, b) <= TextWidth(JoinAll(words, cur), b)
    ensures cur != "" ==> JoinAll(words, cur) != ""
  {
    if words != [] {
      JoinedWidth(cur, words[0], b);
      JoinAllWidens(words[1..], Joined(cur, words[0]), b);
    }
  }

  /** When every word fits, no way of breaking the paragraph in order uses fewer lines. */
  lemma {:induction false} GreedyUsesFewestLines(groups: seq<seq<string>>, b: Box)
    requires IsLayout(groups, b) && AllFit(Concat(groups), b)
    ensures |Fill(Concat(groups), "", b)| <= |groups|
    decreases |groups|
  {
    if groups != [] {
      var g, rest := groups[0], Concat(groups[1..]);
      assert forall i :: 0 <= i < |rest| ==> rest[i] == Concat(groups)[|g| + i];
      assert g[0] == Concat(groups)[0];
      FillTakesGroup(g, rest, "", b);
      JoinAllWidens(g[1..], g[0], b);
      ShorterIsBetter(rest, JoinAll(g, ""), JoinAll(g, ""), b);
      GreedyUsesFewestLines(groups[1..], b);
    }
  }

  /** And the greedy lines are themselves such a way: consecutive groups of the words, in order. */
  lemma {:induction false} GreedyIsALayout(words: seq<string>, done: seq<string>, b: Box)
    returns (groups: seq<seq<string>>)
    requires AllFit(words, b) && (done == [] || Fits(JoinAll(done, ""), b))
    requires done != [] ==> JoinAll(done, "") != ""
    ensures IsLayout(groups, b) && Concat(groups) == done + words
    ensures |groups| == |Fill(words, JoinAll(done, ""), b)|
    ensures forall i :: 0 <= i < |groups| ==> Fill(words, JoinAll(done, ""), b)[i] == JoinAll(groups[i], "")
    decreases |words|
  {
    hide TextWidth, GlyphWidth, Break, Joined, JoinAll;
    var cur := JoinAll(done, "");
    if words == [] {
      NoWords();
      groups := if done == [] then [] else [done];
      assert groups != [] ==> groups[1..] == [];
      assert done + words == done && done + [] == done;
    } else {
      var w, rest := words[0], words[1..];
      OneMoreWord(done, w);
      assert AllFit(rest, b) && Fits(w, b);
      if Fits(Joined(cur, w), b) {
        groups := GreedyIsALayout(rest, done + [w], b);
        assert (done + [w]) + rest == done + words;
      } else {
        OneMoreWord([], w);
        var tail := GreedyIsALayout(rest, [w], b);
        groups := [done] + tail;
        OneMoreLine(done, tail, b);
        assert [w] + rest == words;
      }
    }
  }

  lemma NoWords()
    ensures JoinAll([], "") == ""
  {
  }

  lemma OneMoreWord(done: seq<string>, w: string)
    requires w != ""
    ensures JoinAll(done + [w], "") == Joined(JoinAll(done, ""), w) != ""
    ensures done == [] ==> done + [w] == [w] && Joined(JoinAll(done, ""), w) == w
  {
    JoinAllSnoc(done, w, "");
  }

  lemma OneMoreLine(done: seq<string>, tail: seq<seq<string>>, b: Box)
    requires done != [] && Fits(JoinAll(done, ""), b) && IsLayout(tail, b)
    ensures IsLayout([done] + tail, b) && Concat([done] + tail) == done + Concat(tail)
  {
    assert ([done] + tail)[1..] == tail;
  }

  lemma {:induction false} JoinAllSnoc(words: seq<string>, w: string, cur: string)
    ensures JoinAll(words + [w], cur) == Joined(JoinAll(words, cur), w)
  {
    if words == [] {
      assert (words + [w])[1..] == [];
    } else {
      assert (words + [w])[1..] == words[1..] + [w];
      JoinAllSnoc(words[1..], w, Joined(cur, words[0]));
    }
  }

  // ----- Where words and lines begin and end -----

  lemma {:induction false} WordsBreakAt(a: string, c: char, t: string, cur: string)
    requires IsSpace(c)
    ensures Fields(a + ([c] + t), cur) == Fields(a, cur) + Fields(t, "")
  {
    var s := a + ([c] + t);
    if a == "" {
      assert s[0] == c && s[1..] == t;
    } else {
      assert s[1..] == a[1..] + ([c] + t);
      WordsBreakAt(a[1..], c, t, if IsSpace(a[0]) then "" else cur + [a[0]]);
    }
  }

  lemma {:induction false} OneWordStays(w: string, cur: string)
    requires forall i :: 0 <= i < |w| ==> !IsSpace(w[i])
    ensures Fields(w, cur) == if cur + w == "" then [] else [cur + w]
  {
    if w != "" {
      OneWordStays(w[1..], cur + [w[0]]);
      assert cur + [w[0]] + w[1..] == cur + w;
    } else {
      assert cur + w == cur;
    }
  }

  /** Words are what stands between white space: a text is cut at each white space character and nowhere else. */
  lemma WordsAreBetweenSpaces(a: string, c: char, t: string, w: string)
    ensures IsSpace(c) ==> Fields(a + ([c] + t), "") == Fields(a, "") + Fields(t, "")
    ensures (forall i :: 0 <= i < |w| ==> !IsSpace(w[i])) ==> Fields(w, "") == if w == "" then [] else [w]
  {
    if IsSpace(c) {
      WordsBreakAt(a, c, t, "");
    }
    if forall i :: 0 <= i < |w| ==> !IsSpace(w[i]) {
      OneWordStays(w, "");
      assert "" + w == w;
    }
  }

  lemma {:induction false} LinesBreakAt(a: string, t: string, cur: string)
    ensures Split(a + ("\n" + t), cur) == Split(a, cur) + Split(t, "")
  {
    var s := a + ("\n" + t);
    if a == "" {
      assert s[0] == '\n' && s[1..] == t;
    } else {
      assert s[1..] == a[1..] + ("\n" + t);
      LinesBreakAt(a[1..], t, if a[0] == '\n' then "" else cur + [a[0]]);
    }
  }

  lemma {:induction false} OneLineStays(a: string, cur: string)
    requires forall i :: 0 <= i < |a| ==> a[i] != '\n'
    ensures Split(a, cur) == [cur + a]
  {
    if a != "" {
      OneLineStays(a[1..], cur + [a[0]]);
      assert cur + [a[0]] + a[1..] == cur + a;
    } else {
      assert cur + a == cur;
    }
  }

  lemma {:induction false} FillAllAppend(p: seq<string>, q: seq<string>, b: Box)
    ensures FillAll(p + q, b) == FillAll(p, b) + FillAll(q, b)
  {
    if p == [] {
      assert p + q == q;
    } else {
      assert (p + q)[1..] == p[1..] + q;
      FillAllAppend(p[1..], q, b);
    }
  }

  /** The lines of a text are those of its paragraphs, which end at line feeds, each filled with its own words. */
  lemma ParagraphsAreFilledAlone(a: string, t: string, b: Box)
    ensures FillAll(Split(a + ("\n" + t), ""), b) == FillAll(Split(a, ""), b) + FillAll(Split(t, ""), b)
    ensures (forall i :: 0 <= i < |a| ==> a[i] != '\n') ==> FillAll(Split(a, ""), b) == Fill(Fields(a, ""), "", b)
    ensures 0 < b.maxW && TrimSpace(a) != "" ==> Wrap(a, b) == FillAll(Split(TrimSpace(a), ""), b)
  {
    LinesBreakAt(a, t, "");
    FillAllAppend(Split(a, ""), Split(t, ""), b);
    if forall i :: 0 <= i < |a| ==> a[i] != '\n' {
      OneLineStays(a, "");
      assert "" + a == a && Split(a, "") == [a];
      OneParagraph(a, b);
    }
  }

  lemma OneParagraph(a: string, b: Box)
    ensures FillAll([a], b) == Fill(Fields(a, ""), "", b)
  {
    assert [a][1..] == [] && FillAll([], b) == [];
    assert FillAll([a], b) == Fill(Fields(a, ""), "", b) + FillAll([a][1..], b);
  }

  /** What trimming leaves begins and ends with ink, and nothing but white space is taken off. */
  lemma {:induction false} TrimmedText(s: string)
    ensures TrimLeft(s) == "" || !IsSpace(TrimLeft(s)[0])
    ensures exists k :: 0 <= k <= |s| && TrimLeft(s) == s[k..] && forall i :: 0 <= i < k ==> IsSpace(s[i])
  {
    if s != "" && IsSpace(s[0]) {
      TrimmedText(s[1..]);
      var k :| 0 <= k <= |s[1..]| && TrimLeft(s[1..]) == s[1..][k..] && forall i :: 0 <= i < k ==> IsSpace(s[1..][i]);
      assert s[1..][k..] == s[k + 1..];
      assert forall i :: 0 < i < k + 1 ==> s[i] == s[1..][i - 1];
    } else {
      assert s[0..] == s;
    }
  }

  /** A long word is broken as late as possible: no line but the last could take one more character. */
  lemma {:induction false} BreakIsGreedy(s: string, cur: string, b: Box)
    ensures var lines := Break(s, cur, b);
            && (forall i :: 0 <= i < |lines| ==> lines[i] != "")
            && (cur != "" ==> lines != [] && cur <= lines[0])
            && (cur == "" && s != "" ==> lines != [] && lines[0][0] == s[0])
            && forall i :: 0 <= i < |lines| - 1 ==> !Fits(lines[i] + [lines[i + 1][0]], b)
  {
    hide Fits;
    if s != "" {
      var next := if Fits(cur + [s[0]], b) then cur + [s[0]] else [s[0]];
      BreakIsGreedy(s[1..], next, b);
      var tail := Break(s[1..], next, b);
      assert next <= tail[0] && tail[0][0] == next[0];
      if !Fits(cur + [s[0]], b) && cur != "" {
        assert Break(s, cur, b) == [cur] + tail;
      } else {
        assert Break(s, cur, b) == tail by {
          assert [] + tail == tail;
        }
      }
    }
  }

  /** White space, as Unicode defines it. */
  lemma WhiteSpace(c: char)
    ensures var n := c as int;
            IsSpace(c) <==> n in {9, 10, 11, 12, 13, 32, 0x85, 0xA0, 0x1680, 0x2028, 0x2029, 0x202F, 0x205F, 0x3000}
                            || 0x2000 <= n <= 0x200A
  {
  }

  /** The widths, in hundredths of the size, and bold six per cent wider; a text is as wide as its glyphs. */
  lemma WidthsOfGlyphs(r: char, s: string, b: Box)
    ensures GlyphWidth(r, true) * 100 == GlyphWidth(r, false) * 106
    ensures GlyphWidth(r, false) == 100 * if r in " Iiljft.," then 28
                                         else if r in "mMWw" then 83
                                         else if '0' <= r <= '9' then 56
                                         else if 'A' <= r <= 'Z' then 67
                                         else if 'a' <= r <= 'z' then 52
                                         else 55
    ensures TextWidth("", b) == 0 && TextWidth(s + [r], b) == TextWidth(s, b) + GlyphWidth(r, b.bold) * b.size
  {
    WidthAppend(s, [r], b);
    assert [r][1..] == "";
    if r in " Iiljft.," {
      assert r == ' ' || r in {'I', 'i', 'l', 'j', 'f', 't', '.', ','};
    }
    var narrow, wide := " Iiljft.,", "mMWw";
    assert narrow[0] == ' ' && narrow[1] == 'I' && narrow[2] == 'i' && narrow[3] == 'l' && narrow[4] == 'j';
    assert narrow[5] == 'f' && narrow[6] == 't' && narrow[7] == '.' && narrow[8] == ',';
    assert wide[0] == 'm' && wide[1] == 'M' && wide[2] == 'W' && wide[3] == 'w';
  }
}
