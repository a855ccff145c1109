/** The file structure of the hand-written PDF (internal/invoice/pdf.go): objects, cross-reference table
    and trailer, and a reader that follows sections 7.3.8, 7.5.4 and 7.5.5 of ISO 32000-1. Files are
    sequences of bytes, written as characters. */
module PdfDocument {
  import opened Options
  import opened PdfDict
  import opened PdfText
  import opened PdfLayout

  // ----- Numbers -----

  predicate IsDigit(c: char) {
    '0' <= c <= '9'
  }

  predicate Digits(s: string) {
    forall i :: 0 <= i < |s| ==> IsDigit(s[i])
  }

  function Digit(n: nat): (c: char)
    requires n < 10
    ensures IsDigit(c) && c as int == '0' as int + n
  {
    ('0' as int + n) as char
  }

  /** `%d`. */
  function Dec(n: nat): (s: string)
    ensures s != "" && Digits(s)
  {
    if n < 10 then [Digit(n)] else Dec(n / 10) + [Digit(n % 10)]
  }

  function Zeros(n: nat): (s: string)
    ensures |s| == n && Digits(s)
  {
    if n == 0 then "" else Zeros(n - 1) + "0"
  }

  /** `%010d`. */
  function Dec10(n: nat): (s: string)
    ensures Digits(s) && 10 <= |s|
  {
    if |Dec(n)| < 10 then Zeros(10 - |Dec(n)|) + Dec(n) else Dec(n)
  }

  /** `%.1f` of a number given in tenths. */
  function Tenths(n: nat): string {
    Dec(n / 10) + "." + Dec(n % 10)
  }

  function Decimal(s: string): nat
    requires Digits(s)
  {
    if s == "" then 0 else 10 * Decimal(s[..|s| - 1]) + (s[|s| - 1] as int - '0' as int)
  }

  lemma {:induction false} ValueOfDec(n: nat)
    ensures Decimal(Dec(n)) == n
  {
    if n < 10 {
      assert [Digit(n)][..0] == "";
    } else {
      ValueOfDec(n / 10);
      assert Dec(n)[..|Dec(n)| - 1] == Dec(n / 10);
    }
  }

  lemma {:induction false} ValueOfZeros(k: nat, s: string)
    requires Digits(s)
    ensures Decimal(Zeros(k) + s) == Decimal(s)
    decreases |s|
  {
    if s == "" {
      assert Zeros(k) + s == Zeros(k);
      ZerosAreZero(k);
    } else {
      var n := |s| - 1;
      assert (Zeros(k) + s)[..|Zeros(k) + s| - 1] == Zeros(k) + s[..n];
      ValueOfZeros(k, s[..n]);
    }
  }

  lemma {:induction false} ZerosAreZero(k: nat)
    ensures Decimal(Zeros(k)) == 0
  {
    if k > 0 {
      assert Zeros(k)[..k - 1] == Zeros(k - 1);
      ZerosAreZero(k - 1);
    }
  }

  lemma ValueOfDec10(n: nat)
    ensures Decimal(Dec10(n)) == n
  {
    ValueOfDec(n);
    ValueOfZeros(if |Dec(n)| < 10 then 10 - |Dec(n)| else 0, Dec(n));
  }

  function Power10(k: nat): nat {
    if k == 0 then 1 else 10 * Power10(k - 1)
  }

  lemma {:induction false} DecLength(n: nat, k: nat)
    requires 0 < k
    ensures |Dec(n)| <= k <==> n < Power10(k)
    decreases k
  {
    if k == 1 {
      assert Power10(1) == 10 * Power10(0);
    } else if 10 <= n {
      DecLength(n / 10, k - 1);
    } else {
      PowersAreLarge(k);
    }
  }

  lemma {:induction false} PowersAreLarge(k: nat)
    requires 0 < k
    ensures 10 <= Power10(k)
  {
    if k > 1 {
      PowersAreLarge(k - 1);
    }
  }

  const TEN_DIGITS: nat := 10_000_000_000

  /** A cross-reference entry has its 20 bytes exactly while the offset has at most ten digits. */
  lemma EntryWidthIff(offset: nat)
    ensures |Entry(offset)| == 20 <==> offset < TEN_DIGITS
  {
    DecLength(offset, 10);
    assert Power10(10) == TEN_DIGITS by {
      assert Power10(2) == 100 && Power10(4) == 10_000;
      assert Power10(6) == 1_000_000 && Power10(8) == 100_000_000;
    }
  }

  function Entry(offset: nat): string {
    Dec10(offset) + " 00000 n \n"
  }

  // ----- What is written -----

  /** An object is a dictionary, possibly followed by a stream. */
  datatype PdfObject = PdfObject(dict: Dict, stream: Option<Bytes>)

  datatype Jpeg = Jpeg(width: nat, height: nat, data: Bytes)

  const PAGE_HEIGHT_TENTHS: int := 8420

  function ObjectBytes(o: PdfObject): Bytes {
    match o.stream
    case None => Show(o.dict)
    case Some(data) => Show(o.dict) + "\nstream\n" + data + "\nendstream"
  }

  function Numbered(number: nat, o: PdfObject): Bytes {
    Dec(number) + " 0 obj\n" + ObjectBytes(o) + "\nendobj\n"
  }

  /** Header and the first `k` objects. */
  function Prefix(objects: seq<PdfObject>, k: nat): Bytes
    requires k <= |objects|
  {
    if k == 0 then "%PDF-1.4\n" else Prefix(objects, k - 1) + Numbered(k, objects[k - 1])
  }

  /** Offset of object `i`, counted from 1. */
  function Offset(objects: seq<PdfObject>, i: nat): nat
    requires 1 <= i <= |objects|
  {
    |Prefix(objects, i - 1)|
  }

  /** The entries of objects 1 to `k`. */
  function Entries(objects: seq<PdfObject>, k: nat): string
    requires k <= |objects|
  {
    if k == 0 then "" else Entries(objects, k - 1) + Entry(Offset(objects, k))
  }

  const FREE_ENTRY: Bytes := "0000000000 65535 f \n"

  /** `%d 0 R`. */
  function Ref(number: nat): string {
    Dec(number) + " 0 R"
  }

  function TrailerDict(size: nat): Dict {
    With("/Size", Text(Dec(size)), With("/Root", Text(Ref(1)), End))
  }

  function Trailer(size: nat, startXref: nat): Bytes {
    "trailer " + (Show(TrailerDict(size)) + ("\n" + StartXref(startXref)))
  }

  function StartXref(offset: nat): Bytes {
    "startxref\n" + (Dec(offset) + "\n%%EOF\n")
  }

  /** Everything from the table onwards. */
  function Table(size: nat, entries: Bytes, startXref: nat): Bytes {
    "xref\n0 " + (Dec(size) + ("\n" + (FREE_ENTRY + (entries + Trailer(size, startXref)))))
  }

  function Document(objects: seq<PdfObject>): Bytes {
    var body := Prefix(objects, |objects|);
    body + Table(|objects| + 1, Entries(objects, |objects|), |body|)
  }

  function ImageObject(img: Jpeg): PdfObject {
    PdfObject(With("/Type", Text("/XObject"), With("/Subtype", Text("/Image"),
              With("/Width", Text(Dec(img.width)), With("/Height", Text(Dec(img.height)),
              With("/ColorSpace", Text("/DeviceRGB"), With("/BitsPerComponent", Text("8"),
              With("/Filter", Text("/DCTDecode"), With("/Length", Text(Dec(|img.data|)), End)))))))),
              Some(img.data))
  }

  function ContentObject(content: Bytes): PdfObject {
    PdfObject(With("/Length", Text(Dec(|content|)), End), Some(content))
  }

  const CATALOG := PdfObject(With("/Type", Text("/Catalog"), With("/Pages", Text(Ref(2)), End)), None)
  const PAGES := PdfObject(With("/Type", Text("/Pages"), With("/Kids", Text("[" + Ref(3) + "]"),
                           With("/Count", Text("1"), End))), None)
  const STAMP_STATE := PdfObject(With("/Type", Text("/ExtGState"), With("/ca", Text("0.14"),
                                 With("/CA", Text("0.14"), End))), None)

  function FontObject(name: string): PdfObject {
    PdfObject(With("/Type", Text("/Font"), With("/Subtype", Text("/Type1"), With("/BaseFont", Text(name), End))), None)
  }

  predicate HasImage(img: Option<Jpeg>) {
    img.Some? && 0 < |img.value.data|
  }

  const FONTS := Sub(With("/F1", Text(Ref(5)), With("/F2", Text(Ref(6)), End)))

  /** The resources of the page: fonts, then the image and the stamp, where they have a number. */
  function Resources(image: Option<nat>, stamp: Option<nat>): Dict {
    With("/Font", FONTS, ImageResource(image, StampResource(stamp)))
  }

  function ImageResource(number: Option<nat>, rest: Dict): Dict {
    if number.Some? then With("/XObject", Sub(With("/Im1", Text(Ref(number.value)), End)), rest) else rest
  }

  function StampResource(number: Option<nat>): Dict {
    if number.Some? then With("/ExtGState", Sub(With("/GS1", Text(Ref(number.value)), End)), End) else End
  }

  function Box(bottom: string): string {
    "[0 " + bottom + " 595 842]"
  }

  function PageDict(bottom: string, resources: Dict): Dict {
    With("/Type", Text("/Page"), With("/Parent", Text(Ref(2)),
    With("/MediaBox", Text(Box(bottom)), With("/CropBox", Text(Box(bottom)),
    With("/Contents", Text(Ref(4)), With("/Resources", Sub(resources), End))))))
  }

  function ClampBottom(tenths: int): nat {
    if tenths < 0 then 0 else if tenths > PAGE_HEIGHT_TENTHS - 2000 then PAGE_HEIGHT_TENTHS - 2000 else tenths
  }

  function ImageNumber(img: Option<Jpeg>): Option<nat> {
    if HasImage(img) then Some(7) else None
  }

  function StampNumber(img: Option<Jpeg>, watermark: bool): Option<nat> {
    if !watermark then None else if HasImage(img) then Some(8) else Some(7)
  }

  function ExtraObjects(img: Option<Jpeg>, watermark: bool): seq<PdfObject> {
    (if HasImage(img) then [ImageObject(img.value)] else []) + if watermark then [STAMP_STATE] else []
  }

  function PageObject(img: Option<Jpeg>, watermark: bool, bottom: int): PdfObject {
    PdfObject(PageDict(Tenths(ClampBottom(bottom)), Resources(ImageNumber(img), StampNumber(img, watermark))), None)
  }

  function Objects(content: Bytes, img: Option<Jpeg>, watermark: bool, bottom: int): seq<PdfObject> {
    [CATALOG, PAGES, PageObject(img, watermark, bottom), ContentObject(content),
     FontObject("/Helvetica"), FontObject("/Helvetica-Bold")]
    + ExtraObjects(img, watermark)
  }

  /** The bytes of a built file. */
  function File(content: Bytes, img: Option<Jpeg>, watermark: bool, bottom: int): Bytes {
    Document(Objects(content, img, watermark, bottom))
  }

  // ----- The code -----

  class Canvas {
    var buf: Bytes
    var img: Option<Jpeg>
    var watermark: bool
    var mediaBottom: int
    ghost var drewImage: bool
    ghost var drewStamp: bool

    /** A content operator that names /Im1 or /GS1 has an object to name. */
    ghost predicate Valid()
      reads this
    {
      (drewStamp ==> watermark) && (img.Some? ==> HasImage(img)) && (drewImage ==> HasImage(img))
    }

    /** The logo is absent or an encoded JPEG, never an empty one. */
    constructor (img: Option<Jpeg>)
      requires img.Some? ==> HasImage(img)
      ensures Valid() && buf == "" && this.img == img && !watermark && !drewImage && !drewStamp
    {
      buf := "";
      this.img := img;
      watermark := false;
      mediaBottom := 0;
      drewImage := false;
      drewStamp := false;
    }

    /** One isolated text run, unless it is blank; `setup` and `place` are the formatted operators around it. */
    method Text(setup: string, s: string, place: string)
      requires Valid()
      modifies this`buf
      ensures Valid()
      ensures buf == if Ink(s) == "" then old(buf) else old(buf) + setup + ("(" + EscapeBody(s) + ")" + " Tj") + place
    {
      if Ink(s) == "" {
        return;
      }
      var run := PdfEscape(s);
      buf := buf + setup + run + place;
    }

    method DrawJpeg(matrix: string, drawable: bool)
      requires Valid()
      modifies this`buf, this`drewImage
      ensures Valid()
      ensures if old(img).Some? && drawable then buf == old(buf) + "q " + matrix + " cm /Im1 Do Q\n" && drewImage
              else buf == old(buf) && drewImage == old(drewImage)
    {
      if img.None? || !drawable {
        return;
      }
      buf := buf + "q " + matrix + " cm /Im1 Do Q\n";
      drewImage := true;
    }

    method PaidWatermark(operators: string)
      requires Valid()
      modifies this`buf, this`watermark, this`drewStamp
      ensures Valid() && watermark && drewStamp
      ensures buf == old(buf) + "q /GS1 gs 0 Tr " + operators + " (LUNAS) Tj ET Q\n"
    {
      watermark := true;
      drewStamp := true;
      buf := buf + "q /GS1 gs 0 Tr " + operators + " (LUNAS) Tj ET Q\n";
    }

    /** Collects the objects, then writes them, remembering each offset, and the table last. */
    method Build() returns (pdf: Bytes)
      requires Valid()
      ensures pdf == File(buf, img, watermark, mediaBottom)
    {
      var image, stamp, extra := Extras(img, watermark);
      var mb := mediaBottom;
      if mb < 0 {
        mb := 0;
      }
      if mb > PAGE_HEIGHT_TENTHS - 2000 {
        mb := PAGE_HEIGHT_TENTHS - 2000;
      }
      var page := PdfObject(PageDict(Tenths(mb), Resources(image, stamp)), None);
      pdf := WriteFile([CATALOG, PAGES, page, ContentObject(buf),
                        FontObject("/Helvetica"), FontObject("/Helvetica-Bold")]
                       + extra);
    }
  }

  /** The optional objects, numbered from 7. */
  method Extras(img: Option<Jpeg>, watermark: bool)
    returns (image: Option<nat>, stamp: Option<nat>, extra: seq<PdfObject>)
    ensures image == ImageNumber(img) && stamp == StampNumber(img, watermark) && extra == ExtraObjects(img, watermark)
  {
    image, stamp, extra := None, None, [];
    var next := 7;
    if img.Some? && |img.value.data| > 0 {
      image := Some(next);
      extra := [ImageObject(img.value)];
      next := next + 1;
    }
    if watermark {
      stamp := Some(next);
      extra := extra + [STAMP_STATE];
    }
  }

  method WriteBody(objects: seq<PdfObject>) returns (pdf: Bytes, offsets: array<nat>)
    ensures pdf == Prefix(objects, |objects|)
    ensures offsets.Length == |objects| + 1 && forall k :: 1 <= k <= |objects| ==> offsets[k] == Offset(objects, k)
  {
    hide Numbered;
    pdf := "%PDF-1.4\n";
    offsets := new nat[|objects| + 1];
    offsets[0] := |pdf|;
    for i := 0 to |objects|
      invariant pdf == Prefix(objects, i)
      invariant forall k :: 1 <= k <= i ==> offsets[k] == Offset(objects, k)
    {
      offsets[i + 1] := |pdf|;
      pdf := pdf + Numbered(i + 1, objects[i]);
    }
  }

  method WriteFile(objects: seq<PdfObject>) returns (pdf: Bytes)
    ensures pdf == Document(objects)
  {
    hide Entry, Offset, Prefix, Table;
    var body, offsets := WriteBody(objects);
    var table := "";
    for i := 1 to |objects| + 1
      invariant table == Entries(objects, i - 1)
    {
      table := table + Entry(offsets[i]);
    }
    pdf := body + Table(|objects| + 1, table, |body|);
  }
}
