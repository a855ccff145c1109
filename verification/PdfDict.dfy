/** Dictionaries as the hand-written PDF spells them (internal/invoice/pdf.go), and a parser for them after
    section 7.3.7 of ISO 32000-1: names as keys; names, numbers, references, arrays and nested dictionaries
    as values. Files are sequences of bytes, written as characters. */
module PdfDict {
  import opened Options

  type Bytes = string

  /** The entries in the order in which they are written. */
  datatype Dict = End | With(key: string, value: Value, rest: Dict)

  /** Anything but a dictionary is kept as it is spelled. */
  datatype Value = Text(text: string) | Sub(dict: Dict)

  // ----- Writing -----

  function Show(d: Dict): Bytes
    decreases d, 1
  {
    "<< " + ShowEntries(d)
  }

  function ShowEntries(d: Dict): Bytes
    decreases d, 0
  {
    match d
    case End => ">>"
    case With(key, value, rest) => key + (" " + (ShowValue(value) + (" " + ShowEntries(rest))))
  }

  function ShowValue(v: Value): Bytes
    decreases v, 0
  {
    match v
    case Text(text) => text
    case Sub(dict) => Show(dict)
  }

  // ----- Reading -----

  /** What follows `p`, when `s` begins with it. */
  function Expect(p: Bytes, s: Bytes): (r: Option<Bytes>)
    ensures r.Some? ==> |r.value| + |p| == |s|
  {
    if |p| <= |s| && s[..|p|] == p then Some(s[|p|..]) else None
  }

  /** Where the first space is. */
  function WordEnd(s: Bytes): (n: nat)
    ensures n <= |s|
  {
    if s == "" || s[0] == ' ' then 0 else 1 + WordEnd(s[1..])
  }

  /** A space that ends a value: the next key or the end of the dictionary follows. */
  predicate EndsValue(s: Bytes) {
    2 <= |s| && s[0] == ' ' && (s[1] == '/' || s[1] == '>')
  }

  function TextEnd(s: Bytes): (n: nat)
    ensures n <= |s|
  {
    if s == "" || EndsValue(s) then 0 else 1 + TextEnd(s[1..])
  }

  /** The dictionary at the beginning of `s` and what follows it. */
  function ReadDict(s: Bytes): (r: Option<(Dict, Bytes)>)
    ensures r.Some? ==> |r.value.1| < |s|
    decreases |s|, 0
  {
    match Expect("<< ", s)
    case None => None
    case Some(t) => ReadEntries(t)
  }

  function ReadEntries(s: Bytes): (r: Option<(Dict, Bytes)>)
    ensures r.Some? ==> |r.value.1| < |s|
    decreases |s|, 0
  {
    match Expect(">>", s)
    case Some(t) => Some((End, t))
    case None =>
      var n := WordEnd(s);
      if n == |s| || s[0] != '/' then None
      else
        match ReadValue(s[n + 1..])
        case None => None
        case Some((value, t)) =>
          if t == "" || t[0] != ' ' then None
          else
            match ReadEntries(t[1..])
            case None => None
            case Some((rest, u)) => Some((With(s[..n], value, rest), u))
  }

  function ReadValue(s: Bytes): (r: Option<(Value, Bytes)>)
    ensures r.Some? ==> |r.value.1| <= |s|
    decreases |s|, 1
  {
    if Expect("<< ", s) != None then
      match ReadDict(s)
      case None => None
      case Some((dict, t)) => Some((Sub(dict), t))
    else
      var n := TextEnd(s);
      if n == 0 then None else Some((Text(s[..n]), s[n..]))
  }

  // ----- Reading back -----

  predicate IsKey(key: string) {
    key != "" && key[0] == '/' && forall i :: 0 <= i < |key| ==> key[i] != ' '
  }

  /** Spelled in one piece: no dictionary, and nothing inside that ends a value. */
  predicate IsText(t: string) {
    && t != "" && t[0] != '<' && t[|t| - 1] != ' '
    && forall i :: 0 < i < |t| && t[i - 1] == ' ' ==> t[i] != '/' && t[i] != '>'
  }

  predicate IsDict(d: Dict) {
    match d
    case End => true
    case With(key, value, rest) => IsKey(key) && IsValue(value) && IsDict(rest)
  }

  predicate IsValue(v: Value) {
    match v
    case Text(text) => IsText(text)
    case Sub(dict) => IsDict(dict)
  }

  lemma Reads(p: Bytes, rest: Bytes)
    ensures Expect(p, p + rest) == Some(rest)
  {
    assert (p + rest)[..|p|] == p && (p + rest)[|p|..] == rest;
  }

  lemma {:induction false} WordStops(word: Bytes, rest: Bytes)
    requires forall i :: 0 <= i < |word| ==> word[i] != ' '
    ensures WordEnd(word + (" " + rest)) == |word|
  {
    var s := word + (" " + rest);
    if word == "" {
      assert s[0] == ' ';
    } else {
      assert s[1..] == word[1..] + (" " + rest);
      WordStops(word[1..], rest);
    }
  }

  /** Nothing in `t` ends a value, wherever `t` begins. */
  predicate Unbroken(t: string) {
    && (t != "" ==> t[|t| - 1] != ' ')
    && forall i :: 0 < i < |t| && t[i - 1] == ' ' ==> t[i] != '/' && t[i] != '>'
  }

  lemma {:induction false} TextStops(t: Bytes, rest: Bytes)
    requires Unbroken(t) && EndsValue(rest)
    ensures TextEnd(t + rest) == |t|
  {
    var s := t + rest;
    if t == "" {
      assert s == rest;
    } else {
      assert s[1..] == t[1..] + rest;
      assert !EndsValue(s) by {
        if |t| > 1 {
          assert s[0] == t[0] && s[1] == t[1];
        }
      }
      assert Unbroken(t[1..]) by {
        forall i | 0 < i < |t[1..]| && t[1..][i - 1] == ' ' ensures t[1..][i] != '/' && t[1..][i] != '>' {
          assert t[1..][i] == t[i + 1] && t[1..][i - 1] == t[i];
        }
      }
      TextStops(t[1..], rest);
    }
  }

  lemma EntriesEndValues(d: Dict, after: Bytes)
    requires IsDict(d)
    ensures EndsValue(" " + (ShowEntries(d) + after))
  {
    var s := ShowEntries(d) + after;
    assert s[0] == (if d.End? then '>' else '/') by {
      if d.With? {
        assert ShowEntries(d)[0] == d.key[0];
      }
    }
    assert (" " + s)[1] == s[0];
  }

  /** A dictionary that was written is read back, whatever follows it. */
  lemma {:induction false} DictReadsBack(d: Dict, after: Bytes)
    requires IsDict(d)
    ensures ReadDict(Show(d) + after) == Some((d, after))
    decreases d, 1
  {
    EntriesReadBack(d, after);
    Reads("<< ", ShowEntries(d) + after);
    assert Show(d) + after == "<< " + (ShowEntries(d) + after);
  }

  lemma {:induction false} EntriesReadBack(d: Dict, after: Bytes)
    requires IsDict(d)
    ensures ReadEntries(ShowEntries(d) + after) == Some((d, after))
    decreases d, 0
  {
    match d
    case End =>
      Reads(">>", after);
    case With(key, value, rest) =>
      var more := ShowEntries(rest) + after;
      var tail := ShowValue(value) + (" " + more);
      EntrySpelled(key, ShowValue(value), ShowEntries(rest), after);
      ValueReadsBack(value, rest, after);
      EntriesReadBack(rest, after);
      OneEntryReads(key, value, tail, more, rest, after);
  }

  lemma EntrySpelled(key: Bytes, value: Bytes, rest: Bytes, after: Bytes)
    ensures key + (" " + (value + (" " + rest))) + after == key + (" " + (value + (" " + (rest + after))))
  {
  }

  lemma OneEntryReads(key: string, value: Value, tail: Bytes, more: Bytes, rest: Dict, after: Bytes)
    requires IsKey(key)
    requires ReadValue(tail) == Some((value, " " + more)) && ReadEntries(more) == Some((rest, after))
    ensures ReadEntries(key + (" " + tail)) == Some((With(key, value, rest), after))
  {
    var s := key + (" " + tail);
    hide ReadValue;
    WordStops(key, tail);
    assert s[0] == '/' && Expect(">>", s) == None by {
      assert s[0] == key[0];
    }
    assert s[..|key|] == key && s[|key| + 1..] == tail;
    assert (" " + more)[1..] == more;
  }

  lemma {:induction false} ValueReadsBack(v: Value, rest: Dict, after: Bytes)
    requires IsValue(v) && IsDict(rest)
    ensures ReadValue(ShowValue(v) + (" " + (ShowEntries(rest) + after)))
            == Some((v, " " + (ShowEntries(rest) + after)))
    decreases v, 0
  {
    var tail := " " + (ShowEntries(rest) + after);
    match v
    case Sub(dict) =>
      DictReadsBack(dict, tail);
      Reads("<< ", ShowEntries(dict) + tail);
      assert Show(dict) + tail == "<< " + (ShowEntries(dict) + tail);
    case Text(text) =>
      EntriesEndValues(rest, after);
      TextStops(text, tail);
      assert (text + tail)[0] == text[0];
      assert (text + tail)[..|text|] == text && (text + tail)[|text|..] == tail;
  }

  // ----- Looking up -----

  function Find(d: Dict, key: string): Option<Value> {
    match d
    case End => None
    case With(k, value, rest) => if k == key then Some(value) else Find(rest, key)
  }

  /** The spelling of the value of `key`, when it is not a dictionary. */
  function FindText(d: Dict, key: string): Option<string> {
    match Find(d, key)
    case Some(Text(text)) => Some(text)
    case _ => None
  }

  /** The dictionary under `key`; empty when there is none. */
  function FindDict(d: Dict, key: string): Dict {
    match Find(d, key)
    case Some(Sub(dict)) => dict
    case _ => End
  }
}
