/** A reader of PDF files that starts from `startxref` and goes through the cross-reference table
    (sections 7.3.8, 7.5.2, 7.5.4 and 7.5.5 of ISO 32000-1), and the proof that it gives back every object
    and the root that the writer of internal/invoice/pdf.go was given. */
module PdfReader {
  import opened Options
  import opened PdfDict
  import opened PdfDocument

  // ----- Tokens -----

  /** What comes before `p`, when `s` ends with it. */
  function ExpectLast(p: Bytes, s: Bytes): Option<Bytes> {
    if |p| <= |s| && s[|s| - |p|..] == p then Some(s[..|s| - |p|]) else None
  }

  /** The number of leading digits. */
  function DigitRun(s: Bytes): (n: nat)
    ensures n <= |s| && Digits(s[..n]) && (n < |s| ==> !IsDigit(s[n]))
  {
    if s == "" || !IsDigit(s[0]) then 0 else 1 + DigitRun(s[1..])
  }

  function ReadNumber(s: Bytes): Option<(nat, Bytes)> {
    var n := DigitRun(s);
    if n == 0 then None else Some((Decimal(s[..n]), s[n..]))
  }

  /** Where the trailing digits start. */
  function LastNumberAt(s: Bytes): (n: nat)
    ensures n <= |s| && (0 < n ==> !IsDigit(s[n - 1]))
    ensures forall i :: n <= i < |s| ==> IsDigit(s[i])
  {
    if s == "" || !IsDigit(s[|s| - 1]) then |s| else LastNumberAt(s[..|s| - 1])
  }

  lemma ReadsLast(p: Bytes, rest: Bytes)
    ensures ExpectLast(rest, p + rest) == Some(p)
  {
    assert (p + rest)[..|p|] == p && (p + rest)[|p|..] == rest;
  }

  predicate NoDigitFirst(s: Bytes) {
    s == "" || !IsDigit(s[0])
  }

  lemma {:induction false} DigitRunStops(d: Bytes, rest: Bytes)
    requires Digits(d) && NoDigitFirst(rest)
    ensures DigitRun(d + rest) == |d|
  {
    if d == "" {
      assert d + rest == rest;
    } else {
      assert (d + rest)[1..] == d[1..] + rest;
      DigitRunStops(d[1..], rest);
    }
  }

  lemma NumberReads(n: nat, rest: Bytes)
    requires NoDigitFirst(rest)
    ensures ReadNumber(Dec(n) + rest) == Some((n, rest))
  {
    var s, d := Dec(n) + rest, Dec(n);
    DigitRunStops(d, rest);
    assert s[..|d|] == d && s[|d|..] == rest;
    ValueOfDec(n);
  }

  lemma LastNumberReads(p: Bytes, n: nat)
    requires p != "" && !IsDigit(p[|p| - 1])
    ensures LastNumberAt(p + Dec(n)) == |p|
  {
    var s, d := p + Dec(n), Dec(n);
    var k := LastNumberAt(s);
    assert s[|p| - 1] == p[|p| - 1];
    assert forall i :: |p| <= i < |s| ==> IsDigit(s[i]);
  }

  /** The number that a value spells. */
  function Number(text: Option<string>): Option<nat> {
    if text.Some? && text.value != "" && Digits(text.value) then Some(Decimal(text.value)) else None
  }

  lemma NumberOfDec(n: nat)
    ensures Number(Some(Dec(n))) == Some(n)
  {
    ValueOfDec(n);
  }

  /** The object number of `n 0 R`. */
  function RefOf(text: Option<string>): Option<nat> {
    match text
    case None => None
    case Some(t) =>
      match ReadNumber(t)
      case None => None
      case Some((n, rest)) => if rest == " 0 R" then Some(n) else None
  }

  lemma RefReads(n: nat)
    ensures RefOf(Some(Ref(n))) == Some(n)
  {
    NumberReads(n, " 0 R");
  }

  // ----- Objects -----

  /** The object that starts at the beginning of `s`, with its number. */
  function ReadObject(s: Bytes): Option<(nat, PdfObject)> {
    match ReadNumber(s)
    case None => None
    case Some((number, afterNumber)) =>
      match Expect(" 0 obj\n", afterNumber)
      case None => None
      case Some(body) =>
        match ReadDict(body)
        case None => None
        case Some((dict, rest)) =>
          match ReadRest(dict, rest)
          case None => None
          case Some(o) => Some((number, o))
  }

  /** A stream follows its dictionary when the keyword says so, and is as long as the dictionary says. */
  function ReadRest(dict: Dict, s: Bytes): Option<PdfObject> {
    match Expect("\nstream\n", s)
    case None =>
      if Expect("\nendobj\n", s) == None then None else Some(PdfObject(dict, None))
    case Some(t) =>
      match Number(FindText(dict, "/Length"))
      case None => None
      case Some(n) =>
        if |t| < n || Expect("\nendstream\nendobj\n", t[n..]) == None then None
        else Some(PdfObject(dict, Some(t[..n])))
  }

  ghost predicate WellFormed(o: PdfObject) {
    IsDict(o.dict) && (o.stream.Some? ==> Number(FindText(o.dict, "/Length")) == Some(|o.stream.value|))
  }

  /** What stands after the dictionary. */
  function Rest(o: PdfObject, after: Bytes): Bytes {
    match o.stream
    case None => "\nendobj\n" + after
    case Some(data) => "\nstream\n" + (data + ("\nendstream\nendobj\n" + after))
  }

  lemma RestReads(o: PdfObject, after: Bytes)
    requires WellFormed(o)
    ensures ReadRest(o.dict, Rest(o, after)) == Some(o)
  {
    match o.stream
    case None =>
      Reads("\nendobj\n", after);
      assert ("\nendobj\n" + after)[1] == 'e';
      assert Expect("\nstream\n", "\nendobj\n" + after) == None;
    case Some(data) =>
      var t := data + ("\nendstream\nendobj\n" + after);
      Reads("\nstream\n", t);
      Reads("\nendstream\nendobj\n", after);
      assert t[..|data|] == data && t[|data|..] == "\nendstream\nendobj\n" + after;
  }

  lemma NumberedLayout(number: nat, o: PdfObject, after: Bytes)
    ensures Numbered(number, o) + after == Dec(number) + (" 0 obj\n" + (Show(o.dict) + Rest(o, after)))
  {
    assert ObjectBytes(o) + ("\nendobj\n" + after) == Show(o.dict) + Rest(o, after) by {
      assert "\nendstream" + "\nendobj\n" == "\nendstream\nendobj\n";
      match o.stream
      case None =>
      case Some(data) =>
        assert "\nendstream" + ("\nendobj\n" + after) == "\nendstream\nendobj\n" + after;
    }
    assert Numbered(number, o) + after == Dec(number) + (" 0 obj\n" + (ObjectBytes(o) + ("\nendobj\n" + after)));
  }

  lemma NumberLineReads(number: nat, line: Bytes)
    ensures ReadNumber(Dec(number) + (" 0 obj\n" + line)) == Some((number, " 0 obj\n" + line))
    ensures Expect(" 0 obj\n", " 0 obj\n" + line) == Some(line)
  {
    assert (" 0 obj\n" + line)[0] == ' ';
    NumberReads(number, " 0 obj\n" + line);
    Reads(" 0 obj\n", line);
  }

  lemma ObjectReads(number: nat, o: PdfObject, after: Bytes)
    requires WellFormed(o)
    ensures ReadObject(Numbered(number, o) + after) == Some((number, o))
  {
    hide Numbered, Dec, ReadNumber, Expect, ReadRest, ReadDict, FindText, Show, Rest, Number;
    var line := Show(o.dict) + Rest(o, after);
    NumberedLayout(number, o, after);
    NumberLineReads(number, line);
    DictReadsBack(o.dict, Rest(o, after));
    RestReads(o, after);
  }

  // ----- The file -----

  /** The byte offset named after `startxref`. */
  function ReadStartXref(pdf: Bytes): Option<nat> {
    match ExpectLast("\n%%EOF\n", pdf)
    case None => None
    case Some(s) =>
      var k := LastNumberAt(s);
      if k == |s| || ExpectLast("startxref\n", s[..k]) == None then None else Some(Decimal(s[k..]))
  }

  /** What a 20-byte entry of an object in use says. */
  function ReadEntry(e: Bytes): Option<nat>
    requires |e| == 20
  {
    if Digits(e[..10]) && e[10..] == " 00000 n \n" then Some(Decimal(e[..10])) else None
  }

  /** The entry of object `k`, counted from 1. */
  function EntryOf(table: Bytes): nat -> Option<nat> {
    (k: nat) => if k == 0 || |table| < 20 * k then None else ReadEntry(table[20 * (k - 1)..20 * k])
  }

  /** The object that starts at an offset. */
  function ObjectAt(pdf: Bytes): nat -> Option<(nat, PdfObject)> {
    (offset: nat) => if |pdf| < offset then None else ReadObject(pdf[offset..])
  }

  /** The objects 1 to `k`, each found through its entry and carrying its number. */
  function Collect<T>(entry: nat -> Option<nat>, at: nat -> Option<(nat, T)>, k: nat): Option<seq<T>> {
    if k == 0 then Some([])
    else
      match Collect(entry, at, k - 1)
      case None => None
      case Some(ts) =>
        match entry(k)
        case None => None
        case Some(offset) =>
          match at(offset)
          case None => None
          case Some((number, t)) => if number == k then Some(ts + [t]) else None
  }

  /** The number of entries that the table at the start of `s` announces, and the in-use ones onwards. */
  function ReadTableHead(s: Bytes): Option<(nat, Bytes)> {
    match Expect("xref\n0 ", s)
    case None => None
    case Some(s1) =>
      match ReadNumber(s1)
      case None => None
      case Some((size, s2)) =>
        match Expect("\n", s2)
        case None => None
        case Some(s3) =>
          match Expect("0000000000 65535 f \n", s3)
          case None => None
          case Some(table) => Some((size, table))
  }

  /** `/Size` and `/Root` of the trailer. */
  function ReadTrailer(s: Bytes): Option<(nat, nat)> {
    match Expect("trailer ", s)
    case None => None
    case Some(t) =>
      match ReadDict(t)
      case None => None
      case Some((dict, _)) =>
        var size, root := Number(FindText(dict, "/Size")), RefOf(FindText(dict, "/Root"));
        if size.Some? && root.Some? then Some((size.value, root.value)) else None
  }

  /** A file as a reader sees it: the number of its root and the objects, numbered from 1. */
  datatype PdfFile = PdfFile(root: nat, objects: seq<PdfObject>)

  function ReadFile(pdf: Bytes): Option<PdfFile> {
    match ReadStartXref(pdf)
    case None => None
    case Some(x) =>
      if |pdf| < x || Expect("%PDF-1.", pdf) == None then None
      else
        match ReadTableHead(pdf[x..])
        case None => None
        case Some((size, table)) => ReadIndexed(pdf, size, table)
  }

  /** The trailer after the table has to repeat its size. */
  function ReadIndexed(pdf: Bytes, size: nat, table: Bytes): Option<PdfFile> {
    if size == 0 || |table| < 20 * (size - 1) then None
    else
      match ReadTrailer(table[20 * (size - 1)..])
      case None => None
      case Some((announced, root)) =>
        if announced != size then None
        else
          match Collect(EntryOf(table), ObjectAt(pdf), size - 1)
          case None => None
          case Some(objects) => Some(PdfFile(root, objects))
  }

  // ----- Reading back what was written -----

  /** The offsets of the first `k` objects fit the ten digits of an entry. */
  predicate AddressableTo(objects: seq<PdfObject>, k: nat)
    requires k <= |objects|
  {
    forall i :: 1 <= i <= k ==> Offset(objects, i) < TEN_DIGITS
  }

  lemma EntryReads(offset: nat)
    requires offset < TEN_DIGITS
    ensures |Entry(offset)| == 20 && ReadEntry(Entry(offset)) == Some(offset)
  {
    EntryWidthIff(offset);
    assert |Dec10(offset)| == 10;
    assert Entry(offset)[..10] == Dec10(offset) && Entry(offset)[10..] == " 00000 n \n";
    ValueOfDec10(offset);
  }

  /** An offset with more than ten digits pushes its entry out of shape. */
  lemma WideEntryFails(offset: nat)
    requires TEN_DIGITS <= offset
    ensures 20 < |Entry(offset)| && ReadEntry(Entry(offset)[..20]) == None
  {
    EntryWidthIff(offset);
    var e := Entry(offset)[..20];
    assert 11 <= |Dec10(offset)|;
    assert e[10] == Dec10(offset)[10];
    assert e[10..][0] == e[10] && IsDigit(e[10]);
  }

  lemma Remainder(a: Bytes, b: Bytes, whole: Bytes) returns (post: Bytes)
    requires a + b <= whole
    ensures whole == a + (b + post)
  {
    post := whole[|a + b|..];
    assert whole == (a + b) + post;
  }

  lemma Longer(a: Bytes, b: Bytes, c: Bytes)
    requires a <= b
    ensures a <= b + c
  {
  }

  lemma {:induction false} EntriesGrow(objects: seq<PdfObject>, i: nat, k: nat)
    requires i <= k <= |objects|
    ensures Entries(objects, i) <= Entries(objects, k)
  {
    hide Entry, Offset;
    if i < k {
      EntriesGrow(objects, i, k - 1);
      Longer(Entries(objects, i), Entries(objects, k - 1), Entry(Offset(objects, k)));
    }
  }

  lemma {:induction false} EntriesWidth(objects: seq<PdfObject>, k: nat)
    requires k <= |objects| && AddressableTo(objects, k)
    ensures |Entries(objects, k)| == 20 * k
  {
    if k > 0 {
      EntriesWidth(objects, k - 1);
      EntryWidthIff(Offset(objects, k));
    }
  }

  lemma {:induction false} EntriesWidthAtLeast(objects: seq<PdfObject>, k: nat)
    requires k <= |objects|
    ensures 20 * k <= |Entries(objects, k)|
  {
    if k > 0 {
      EntriesWidthAtLeast(objects, k - 1);
    }
  }

  lemma {:induction false} PrefixGrows(objects: seq<PdfObject>, i: nat, k: nat)
    requires i <= k <= |objects|
    ensures Prefix(objects, i) <= Prefix(objects, k)
  {
    if i < k {
      PrefixGrows(objects, i, k - 1);
      Longer(Prefix(objects, i), Prefix(objects, k - 1), Numbered(k, objects[k - 1]));
    }
  }

  lemma Cut(a: Bytes, b: Bytes, whole: Bytes)
    requires a + b <= whole && 20 <= |b|
    ensures whole[|a|..|a| + 20] == b[..20]
  {
    assert whole[|a|..|a| + 20] == (a + b)[|a|..|a| + 20];
  }

  lemma EntryPlace(objects: seq<PdfObject>, table: Bytes, k: nat)
    requires 1 <= k <= |objects| && AddressableTo(objects, k - 1)
    requires Entries(objects, |objects|) <= table
    ensures Entries(objects, k - 1) + Entry(Offset(objects, k)) <= table
    ensures |Entries(objects, k - 1)| == 20 * (k - 1)
  {
    hide Entry, Offset, AddressableTo;
    assert Entries(objects, k - 1) + Entry(Offset(objects, k)) <= table by {
      EntriesGrow(objects, k, |objects|);
    }
    EntriesWidth(objects, k - 1);
  }

  /** With the entries before it in shape, entry `k` is in shape exactly while its offset fits. */
  lemma NextEntry(objects: seq<PdfObject>, table: Bytes, k: nat)
    requires 1 <= k <= |objects| && AddressableTo(objects, k - 1)
    requires Entries(objects, |objects|) <= table && 20 * k <= |table|
    ensures EntryOf(table)(k) == if Offset(objects, k) < TEN_DIGITS then Some(Offset(objects, k)) else None
  {
    EntryPlace(objects, table, k);
    EntryOutcome(Offset(objects, k), Entries(objects, k - 1), k, table);
  }

  lemma EntryOutcome(offset: nat, pre: Bytes, k: nat, table: Bytes)
    requires 0 < k && pre + Entry(offset) <= table && |pre| == 20 * (k - 1) && 20 * k <= |table|
    ensures EntryOf(table)(k) == if offset < TEN_DIGITS then Some(offset) else None
  {
    if offset < TEN_DIGITS {
      EntryReads(offset);
      assert Entry(offset)[..20] == Entry(offset);
    } else {
      WideEntryFails(offset);
    }
    Cut(pre, Entry(offset), table);
  }

  /** The offset of object `i` is where the reader finds it. */
  lemma ObjectAtOffset(objects: seq<PdfObject>, i: nat, pdf: Bytes)
    requires 1 <= i <= |objects| && WellFormed(objects[i - 1])
    requires Prefix(objects, |objects|) <= pdf
    ensures ObjectAt(pdf)(Offset(objects, i)) == Some((i, objects[i - 1]))
  {
    hide Numbered, ReadObject;
    PrefixGrows(objects, i, |objects|);
    var before, o := Prefix(objects, i - 1), objects[i - 1];
    assert before + Numbered(i, o) <= pdf;
    hide Prefix;
    var post := Remainder(before, Numbered(i, o), pdf);
    assert pdf[|before|..] == Numbered(i, o) + post;
    ObjectReads(i, o, post);
  }

  lemma {:induction false} CollectsAll<T>(entry: nat -> Option<nat>, at: nat -> Option<(nat, T)>, ts: seq<T>, k: nat)
    requires k <= |ts|
    requires forall i: nat :: 1 <= i <= k ==> entry(i).Some? && at(entry(i).value) == Some((i, ts[i - 1]))
    ensures Collect(entry, at, k) == Some(ts[..k])
  {
    if k > 0 {
      CollectsAll(entry, at, ts, k - 1);
      assert ts[..k - 1] + [ts[k - 1]] == ts[..k];
    }
  }

  lemma {:induction false} CollectsNothing<T>(entry: nat -> Option<nat>, at: nat -> Option<(nat, T)>, i: nat, k: nat)
    requires 1 <= i <= k && entry(i) == None
    ensures Collect(entry, at, k) == None
  {
    if i < k {
      CollectsNothing(entry, at, i, k - 1);
    }
  }

  lemma {:induction false} FirstWide(objects: seq<PdfObject>, k: nat) returns (i: nat)
    requires k <= |objects| && !AddressableTo(objects, k)
    ensures 1 <= i <= k && AddressableTo(objects, i - 1) && TEN_DIGITS <= Offset(objects, i)
  {
    if AddressableTo(objects, k - 1) {
      i := k;
    } else {
      i := FirstWide(objects, k - 1);
    }
  }

  ghost predicate Indexes(entry: nat -> Option<nat>, at: nat -> Option<(nat, PdfObject)>, objects: seq<PdfObject>) {
    forall i: nat :: 1 <= i <= |objects| && AddressableTo(objects, i - 1)
      ==> entry(i) == (if Offset(objects, i) < TEN_DIGITS then Some(Offset(objects, i)) else None)
          && at(Offset(objects, i)) == Some((i, objects[i - 1]))
  }

  lemma IndexedObjectsRead(entry: nat -> Option<nat>, at: nat -> Option<(nat, PdfObject)>, objects: seq<PdfObject>)
    requires Indexes(entry, at, objects)
    ensures Collect(entry, at, |objects|) == if AddressableTo(objects, |objects|) then Some(objects) else None
  {
    if AddressableTo(objects, |objects|) {
      forall i: nat | 1 <= i <= |objects|
        ensures entry(i).Some? && at(entry(i).value) == Some((i, objects[i - 1]))
      {
        assert AddressableTo(objects, i - 1);
      }
      CollectsAll(entry, at, objects, |objects|);
      assert objects[..|objects|] == objects;
    } else {
      var i := FirstWide(objects, |objects|);
      CollectsNothing(entry, at, i, |objects|);
    }
  }

  /** Every object is read back through the table, or, when an offset is too long for its entry, none. */
  lemma ObjectsRead(objects: seq<PdfObject>, pdf: Bytes, table: Bytes)
    requires forall o <- objects :: WellFormed(o)
    requires Prefix(objects, |objects|) <= pdf
    requires Entries(objects, |objects|) <= table && 20 * |objects| <= |table|
    ensures Collect(EntryOf(table), ObjectAt(pdf), |objects|)
            == if AddressableTo(objects, |objects|) then Some(objects) else None
  {
    assert Indexes(EntryOf(table), ObjectAt(pdf), objects) by {
      forall i: nat | 1 <= i <= |objects| && AddressableTo(objects, i - 1)
        ensures EntryOf(table)(i) == (if Offset(objects, i) < TEN_DIGITS then Some(Offset(objects, i)) else None)
                && ObjectAt(pdf)(Offset(objects, i)) == Some((i, objects[i - 1]))
      {
        NextEntry(objects, table, i);
        ObjectAtOffset(objects, i, pdf);
      }
    }
    IndexedObjectsRead(EntryOf(table), ObjectAt(pdf), objects);
  }

  lemma StartXrefReads(before: Bytes, offset: nat)
    ensures ReadStartXref(before + StartXref(offset)) == Some(offset)
  {
    var eof, key := "\n%%EOF\n", "startxref\n";
    var head := before + key;
    assert before + StartXref(offset) == (head + Dec(offset)) + eof;
    ReadsLast(head + Dec(offset), eof);
    assert head[|head| - 1] == key[|key| - 1];
    LastNumberReads(head, offset);
    assert (head + Dec(offset))[..|head|] == head && (head + Dec(offset))[|head|..] == Dec(offset);
    ReadsLast(before, key);
    ValueOfDec(offset);
  }

  lemma TrailerReads(size: nat, offset: nat)
    ensures ReadTrailer(Trailer(size, offset)) == Some((size, 1))
  {
    var rest := "\n" + StartXref(offset);
    hide StartXref, Show, ReadDict;
    TrailerDictIsFine(size);
    Reads("trailer ", Show(TrailerDict(size)) + rest);
    DictReadsBack(TrailerDict(size), rest);
  }

  lemma TrailerDictIsFine(size: nat)
    ensures IsDict(TrailerDict(size))
    ensures Number(FindText(TrailerDict(size), "/Size")) == Some(size)
    ensures RefOf(FindText(TrailerDict(size), "/Root")) == Some(1)
  {
    TrailerIsDict(size);
    RootEntry(size);
    NumberOfDec(size);
    RefReads(1);
  }

  lemma TrailerIsDict(size: nat)
    ensures IsDict(TrailerDict(size))
  {
    DecIsText(size);
    RefIsText(1);
    assert IsKey("/Size") && IsKey("/Root");
    hide Dec, Ref, IsText, IsKey;
    assert IsDict(With("/Root", Text(Ref(1)), End));
  }

  lemma RootEntry(size: nat)
    ensures FindText(TrailerDict(size), "/Size") == Some(Dec(size))
    ensures FindText(TrailerDict(size), "/Root") == Some(Ref(1))
  {
    hide Dec, Ref;
    var rest := With("/Root", Text(Ref(1)), End);
    assert Find(rest, "/Root") == Some(Text(Ref(1)));
    assert "/Size"[1] != "/Root"[1];
  }

  lemma DecIsText(n: nat)
    ensures IsText(Dec(n))
  {
    assert forall i :: 0 <= i < |Dec(n)| ==> IsDigit(Dec(n)[i]);
  }

  lemma RefIsText(n: nat)
    ensures IsText(Ref(n))
  {
    DecIsText(n);
    var r, d := Ref(n), Dec(n);
    assert r[0] == d[0] && r[|r| - 1] == 'R';
    forall i | 0 < i < |r| && r[i - 1] == ' ' ensures r[i] != '/' && r[i] != '>' {
      assert i - 1 < |d| ==> r[i - 1] == d[i - 1];
    }
  }

  lemma TableHeadReads(size: nat, entries: Bytes, offset: nat)
    ensures ReadTableHead(Table(size, entries, offset)) == Some((size, entries + Trailer(size, offset)))
  {
    var table := entries + Trailer(size, offset);
    var line := "\n" + (FREE_ENTRY + table);
    assert line[0] == '\n';
    Reads("xref\n0 ", Dec(size) + line);
    NumberReads(size, line);
    Reads("\n", FREE_ENTRY + table);
    Reads(FREE_ENTRY, table);
  }

  lemma TablePlace(objects: seq<PdfObject>)
    ensures var body := Prefix(objects, |objects|);
            ReadStartXref(Document(objects)) == Some(|body|)
            && body <= Document(objects)
            && Document(objects)[|body|..] == Table(|objects| + 1, Entries(objects, |objects|), |body|)
  {
    var body, entries := Prefix(objects, |objects|), Entries(objects, |objects|);
    var front := TableFront(|objects| + 1, entries, |body|);
    assert Document(objects) == (body + front) + StartXref(|body|);
    StartXrefReads(body + front, |body|);
  }

  lemma TableFront(size: nat, entries: Bytes, startXref: nat) returns (front: Bytes)
    ensures Table(size, entries, startXref) == front + StartXref(startXref)
  {
    hide Show;
    var trailer := "trailer " + (Show(TrailerDict(size)) + "\n");
    assert Trailer(size, startXref) == trailer + StartXref(startXref);
    var head := "xref\n0 " + (Dec(size) + ("\n" + FREE_ENTRY));
    front := head + (entries + trailer);
  }

  lemma {:induction false} HeaderReads(objects: seq<PdfObject>, k: nat)
    requires k <= |objects|
    ensures "%PDF-1." <= Prefix(objects, k)
  {
    if k > 0 {
      hide Numbered;
      HeaderReads(objects, k - 1);
      Longer("%PDF-1.", Prefix(objects, k - 1), Numbered(k, objects[k - 1]));
    }
  }

  lemma TrailerPlace(objects: seq<PdfObject>, tail: Bytes)
    requires AddressableTo(objects, |objects|)
    ensures |Entries(objects, |objects|)| == 20 * |objects|
    ensures (Entries(objects, |objects|) + tail)[20 * |objects|..] == tail
  {
    EntriesWidth(objects, |objects|);
  }

  lemma IndexedReads(objects: seq<PdfObject>, pdf: Bytes, startXref: nat)
    requires forall o <- objects :: WellFormed(o)
    requires Prefix(objects, |objects|) <= pdf
    ensures ReadIndexed(pdf, |objects| + 1, Entries(objects, |objects|) + Trailer(|objects| + 1, startXref))
            == if AddressableTo(objects, |objects|) then Some(PdfFile(1, objects)) else None
  {
    hide Prefix, Entries, Collect, EntryOf, ObjectAt, Trailer, ReadTrailer, WellFormed, Offset;
    var trailer := Trailer(|objects| + 1, startXref);
    EntriesWidthAtLeast(objects, |objects|);
    ObjectsRead(objects, pdf, Entries(objects, |objects|) + trailer);
    if AddressableTo(objects, |objects|) {
      TrailerPlace(objects, trailer);
      TrailerReads(|objects| + 1, startXref);
    }
  }

  lemma DocumentHeader(objects: seq<PdfObject>)
    ensures Expect("%PDF-1.", Document(objects)) != None
  {
    hide Table, Entries, Prefix;
    HeaderReads(objects, |objects|);
    Longer("%PDF-1.", Prefix(objects, |objects|),
           Table(|objects| + 1, Entries(objects, |objects|), |Prefix(objects, |objects|)|));
  }

  lemma ReadsThrough(pdf: Bytes, startXref: nat, size: nat, table: Bytes)
    requires ReadStartXref(pdf) == Some(startXref) && startXref <= |pdf| && Expect("%PDF-1.", pdf) != None
    requires ReadTableHead(pdf[startXref..]) == Some((size, table))
    ensures ReadFile(pdf) == ReadIndexed(pdf, size, table)
  {
    hide ReadStartXref, ReadTableHead, ReadIndexed, Expect;
  }

  /** Reading a written file through its cross-reference table gives back the root and every object, in
      order, exactly while every offset fits its entry; otherwise the table is unreadable. */
  lemma DocumentReadsBack(objects: seq<PdfObject>)
    requires forall o <- objects :: WellFormed(o)
    ensures ReadFile(Document(objects))
            == if AddressableTo(objects, |objects|) then Some(PdfFile(1, objects)) else None
  {
    hide *;
    DocumentHeader(objects);
    var n, body, entries := |objects|, Prefix(objects, |objects|), Entries(objects, |objects|);
    TablePlace(objects);
    TableHeadReads(n + 1, entries, |body|);
    ReadsThrough(Document(objects), |body|, n + 1, entries + Trailer(n + 1, |body|));
    IndexedReads(objects, Document(objects), |body|);
  }

  lemma AddressableIff(objects: seq<PdfObject>)
    requires objects != []
    ensures AddressableTo(objects, |objects|) <==> Offset(objects, |objects|) < TEN_DIGITS
  {
    hide Prefix;
    forall i | 1 <= i <= |objects| ensures Offset(objects, i) <= Offset(objects, |objects|) {
      PrefixGrows(objects, i - 1, |objects| - 1);
    }
  }
}
