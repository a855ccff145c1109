/** What a reader of a built file finds (internal/invoice/pdf.go): from the root over the page tree to the
    page, its text, its fonts, its image and its stamp (sections 7.7.2, 7.7.3 and 7.8.3 of ISO 32000-1). */
module PdfPage {
  import opened Options
  import opened PdfDict
  import opened PdfDocument
  import opened PdfReader

  // ----- Every object is well formed -----

  lemma PlainTexts()
    ensures IsText("/Catalog") && IsText("/Pages") && IsText("/Page") && IsText("/XObject") && IsText("/Image")
    ensures IsText("/DeviceRGB") && IsText("/DCTDecode") && IsText("/ExtGState") && IsText("0.14") && IsText("1")
    ensures IsText("/Font") && IsText("/Type1") && IsText("/Helvetica") && IsText("/Helvetica-Bold") && IsText("8")
  {
    NameIsText("/Catalog");
    NameIsText("/Pages");
    NameIsText("/Page");
    NameIsText("/XObject");
    NameIsText("/Image");
    NameIsText("/DeviceRGB");
    NameIsText("/DCTDecode");
    NameIsText("/ExtGState");
    NameIsText("0.14");
    NameIsText("/Font");
    NameIsText("/Type1");
    NameIsText("/Helvetica");
    NameIsText("/Helvetica-Bold");
    NameIsText("1");
    NameIsText("8");
    hide IsText;
  }

  /** Anything without spaces, a name or a number, is spelled in one piece. */
  lemma NameIsText(t: string)
    requires t != "" && t[0] != '<' && forall i :: 0 <= i < |t| ==> t[i] != ' '
    ensures IsText(t)
  {
  }

  lemma Keys()
    ensures IsKey("/Type") && IsKey("/Subtype") && IsKey("/Width") && IsKey("/Height") && IsKey("/ColorSpace")
    ensures IsKey("/BitsPerComponent") && IsKey("/Filter") && IsKey("/Length") && IsKey("/Pages") && IsKey("/Kids")
    ensures IsKey("/Count") && IsKey("/ca") && IsKey("/CA") && IsKey("/BaseFont") && IsKey("/F1") && IsKey("/F2")
    ensures IsKey("/Font") && IsKey("/XObject") && IsKey("/Im1") && IsKey("/ExtGState") && IsKey("/GS1")
    ensures IsKey("/Parent") && IsKey("/MediaBox") && IsKey("/CropBox") && IsKey("/Contents") && IsKey("/Resources")
  {
  }

  lemma TextEntry(key: string, text: string, rest: Dict)
    requires IsKey(key) && IsText(text) && IsDict(rest)
    ensures IsDict(With(key, Text(text), rest))
  {
  }

  lemma DictEntry(key: string, dict: Dict, rest: Dict)
    requires IsKey(key) && IsDict(dict) && IsDict(rest)
    ensures IsDict(With(key, Sub(dict), rest))
  {
  }

  lemma FixedAreWellFormed()
    ensures WellFormed(CATALOG) && WellFormed(PAGES) && WellFormed(STAMP_STATE)
  {
    Keys();
    PlainTexts();
    RefIsText(2);
    KidsIsText(3);
    hide IsKey, IsText, Ref;
    TextEntry("/Pages", Ref(2), End);
    TextEntry("/Type", "/Catalog", With("/Pages", Text(Ref(2)), End));
    TextEntry("/Count", "1", End);
    TextEntry("/Kids", "[" + Ref(3) + "]", With("/Count", Text("1"), End));
    TextEntry("/Type", "/Pages", With("/Kids", Text("[" + Ref(3) + "]"), With("/Count", Text("1"), End)));
    TextEntry("/CA", "0.14", End);
    TextEntry("/ca", "0.14", With("/CA", Text("0.14"), End));
    TextEntry("/Type", "/ExtGState", With("/ca", Text("0.14"), With("/CA", Text("0.14"), End)));
  }

  lemma KidsIsText(n: nat)
    ensures IsText("[" + Ref(n) + "]")
  {
    RefIsText(n);
    var r := Ref(n);
    var t := "[" + r + "]";
    forall i | 0 < i < |t| && t[i - 1] == ' ' ensures t[i] != '/' && t[i] != '>' {
      if i - 1 < |r| {
        assert t[i - 1] == r[i - 2] && (i <= |r| ==> t[i] == r[i - 1]);
      }
    }
  }

  lemma FontIsWellFormed(name: string)
    requires IsText(name)
    ensures WellFormed(FontObject(name))
  {
    Keys();
    PlainTexts();
    hide IsKey, IsText;
    TextEntry("/BaseFont", name, End);
    TextEntry("/Subtype", "/Type1", With("/BaseFont", Text(name), End));
    TextEntry("/Type", "/Font", With("/Subtype", Text("/Type1"), With("/BaseFont", Text(name), End)));
  }

  lemma ContentIsWellFormed(content: Bytes)
    ensures WellFormed(ContentObject(content))
  {
    Keys();
    DecIsText(|content|);
    NumberOfDec(|content|);
    TextEntry("/Length", Dec(|content|), End);
  }

  lemma ImageIsWellFormed(img: Jpeg)
    ensures WellFormed(ImageObject(img))
  {
    Keys();
    PlainTexts();
    DecIsText(img.width);
    DecIsText(img.height);
    DecIsText(|img.data|);
    NumberOfDec(|img.data|);
    ImageEntries(img);
    hide IsKey, IsText, Dec, FindText, Number;
    var d := ImageObject(img).dict;
    var subtype := d.rest;
    var width := subtype.rest;
    var height := width.rest;
    var space := height.rest;
    var bits := space.rest;
    var filter := bits.rest;
    TextEntry("/Length", Dec(|img.data|), End);
    TextEntry("/Filter", "/DCTDecode", filter.rest);
    TextEntry("/BitsPerComponent", "8", filter);
    TextEntry("/ColorSpace", "/DeviceRGB", bits);
    TextEntry("/Height", Dec(img.height), space);
    TextEntry("/Width", Dec(img.width), height);
    TextEntry("/Subtype", "/Image", width);
    TextEntry("/Type", "/XObject", subtype);
  }

  lemma BoxIsText(bottom: nat)
    ensures IsText(Box(Tenths(bottom)))
  {
    var a, b, t := Dec(bottom / 10), Dec(bottom % 10), Tenths(bottom);
    assert forall i :: 0 <= i < |t| ==> t[i] != ' ' && t[i] != '/' && t[i] != '>';
    var s := Box(t);
    assert s == ("[0 " + t) + " 595 842]";
    forall i | 0 < i < |s| ensures s[i] != '/' && s[i] != '>' {
      if 3 <= i < 3 + |t| {
        assert s[i] == t[i - 3];
      }
    }
  }

  lemma ResourcesAreFine(image: Option<nat>, stamp: Option<nat>)
    ensures IsDict(Resources(image, stamp))
  {
    Keys();
    RefIsText(5);
    RefIsText(6);
    hide IsKey, IsText, Ref;
    TextEntry("/F2", Ref(6), End);
    TextEntry("/F1", Ref(5), With("/F2", Text(Ref(6)), End));
    if stamp.Some? {
      RefIsText(stamp.value);
      TextEntry("/GS1", Ref(stamp.value), End);
      DictEntry("/ExtGState", With("/GS1", Text(Ref(stamp.value)), End), End);
    }
    if image.Some? {
      RefIsText(image.value);
      TextEntry("/Im1", Ref(image.value), End);
      DictEntry("/XObject", With("/Im1", Text(Ref(image.value)), End), StampResource(stamp));
    }
    DictEntry("/Font", FONTS.dict, ImageResource(image, StampResource(stamp)));
  }

  lemma PageIsWellFormed(bottom: nat, resources: Dict)
    requires IsDict(resources)
    ensures WellFormed(PdfObject(PageDict(Tenths(bottom), resources), None))
  {
    Keys();
    PlainTexts();
    RefIsText(2);
    RefIsText(4);
    BoxIsText(bottom);
    hide IsKey, IsText, Ref, Box, Tenths;
    var d := PageDict(Tenths(bottom), resources);
    var parent := d.rest;
    var media := parent.rest;
    var crop := media.rest;
    var contents := crop.rest;
    DictEntry("/Resources", resources, End);
    TextEntry("/Contents", Ref(4), contents.rest);
    TextEntry("/CropBox", Box(Tenths(bottom)), contents);
    TextEntry("/MediaBox", Box(Tenths(bottom)), crop);
    TextEntry("/Parent", Ref(2), media);
    TextEntry("/Type", "/Page", parent);
  }

  lemma InvoiceIsWellFormed(content: Bytes, img: Option<Jpeg>, watermark: bool, bottom: int)
    ensures forall o <- Objects(content, img, watermark, bottom) :: WellFormed(o)
  {
    PlainTexts();
    FixedAreWellFormed();
    ResourcesAreFine(ImageNumber(img), StampNumber(img, watermark));
    PageIsWellFormed(ClampBottom(bottom), Resources(ImageNumber(img), StampNumber(img, watermark)));
    ContentIsWellFormed(content);
    FontIsWellFormed("/Helvetica");
    FontIsWellFormed("/Helvetica-Bold");
    if HasImage(img) {
      ImageIsWellFormed(img.value);
    }
    hide WellFormed, CATALOG, PAGES, STAMP_STATE;
  }

  /** Reading back a built file gives its root and all its objects, for any content, image, watermark and page
      bottom, exactly while the last object starts before byte 10^10. */
  lemma InvoiceReadsBack(content: Bytes, img: Option<Jpeg>, watermark: bool, bottom: int)
    ensures var objects := Objects(content, img, watermark, bottom);
            ReadFile(File(content, img, watermark, bottom))
            == if Offset(objects, |objects|) < TEN_DIGITS then Some(PdfFile(1, objects)) else None
  {
    hide WellFormed, Document, ReadFile, AddressableTo, Offset;
    InvoiceIsWellFormed(content, img, watermark, bottom);
    DocumentReadsBack(Objects(content, img, watermark, bottom));
    AddressableIff(Objects(content, img, watermark, bottom));
  }

  // ----- Entries -----

  lemma Finds(key: string, v: Value, rest: Dict)
    ensures Find(With(key, v, rest), key) == Some(v)
    ensures forall k :: k != key ==> Find(With(key, v, rest), k) == Find(rest, k)
  {
  }

  lemma ImageKeys()
    ensures "/Type" != "/Subtype" && "/Type" != "/Width" && "/Type" != "/Height" && "/Type" != "/ColorSpace"
    ensures "/Type" != "/BitsPerComponent" && "/Type" != "/Filter" && "/Type" != "/Length"
    ensures "/Subtype" != "/Width" && "/Subtype" != "/Height" && "/Subtype" != "/ColorSpace"
    ensures "/Subtype" != "/BitsPerComponent" && "/Subtype" != "/Filter" && "/Subtype" != "/Length"
    ensures "/Width" != "/Height" && "/Width" != "/ColorSpace" && "/Width" != "/BitsPerComponent"
    ensures "/Width" != "/Filter" && "/Width" != "/Length" && "/Height" != "/ColorSpace"
    ensures "/Height" != "/BitsPerComponent" && "/Height" != "/Filter" && "/Height" != "/Length"
    ensures "/ColorSpace" != "/BitsPerComponent" && "/ColorSpace" != "/Filter" && "/ColorSpace" != "/Length"
    ensures "/BitsPerComponent" != "/Filter" && "/BitsPerComponent" != "/Length" && "/Filter" != "/Length"
  {
    assert "/Height"[1] == 'H' && "/Filter"[1] == 'F' && "/Length"[1] == 'L';
  }

  /** The entries of the image dictionary. */
  lemma ImageEntries(img: Jpeg)
    ensures var d := ImageObject(img).dict;
            && FindText(d, "/Type") == Some("/XObject") && FindText(d, "/Subtype") == Some("/Image")
            && FindText(d, "/Width") == Some(Dec(img.width)) && FindText(d, "/Height") == Some(Dec(img.height))
            && FindText(d, "/ColorSpace") == Some("/DeviceRGB") && FindText(d, "/BitsPerComponent") == Some("8")
            && FindText(d, "/Filter") == Some("/DCTDecode") && FindText(d, "/Length") == Some(Dec(|img.data|))
  {
    ImageKeys();
    hide Dec, Find;
    var d := ImageObject(img).dict;
    var subtype := d.rest;
    var width := subtype.rest;
    var height := width.rest;
    var space := height.rest;
    var bits := space.rest;
    var filter := bits.rest;
    Finds("/Type", Text("/XObject"), subtype);
    Finds("/Subtype", Text("/Image"), width);
    Finds("/Width", Text(Dec(img.width)), height);
    Finds("/Height", Text(Dec(img.height)), space);
    Finds("/ColorSpace", Text("/DeviceRGB"), bits);
    Finds("/BitsPerComponent", Text("8"), filter);
    Finds("/Filter", Text("/DCTDecode"), filter.rest);
    Finds("/Length", Text(Dec(|img.data|)), End);
  }

  // ----- Following references -----

  function ObjectOf(f: PdfFile, number: Option<nat>): Option<PdfObject> {
    if number.Some? && 1 <= number.value <= |f.objects| then Some(f.objects[number.value - 1]) else None
  }

  function Entry(o: Option<PdfObject>, key: string): Option<string> {
    if o.Some? then FindText(o.value.dict, key) else None
  }

  function Follow(f: PdfFile, o: Option<PdfObject>, key: string): Option<PdfObject> {
    ObjectOf(f, RefOf(Entry(o, key)))
  }

  /** The only kid of a page-tree node. */
  function OnlyKid(f: PdfFile, node: Option<PdfObject>): Option<PdfObject> {
    match Entry(node, "/Kids")
    case None => None
    case Some(t) =>
      if 2 <= |t| && t[0] == '[' && t[|t| - 1] == ']' then ObjectOf(f, RefOf(Some(t[1..|t| - 1]))) else None
  }

  /** What the page's resources name. */
  function ResourceOf(f: PdfFile, page: Option<PdfObject>, category: string, name: string): Option<PdfObject> {
    match page
    case None => None
    case Some(o) => ObjectOf(f, RefOf(FindText(FindDict(FindDict(o.dict, "/Resources"), category), name)))
  }

  predicate IsFont(o: Option<PdfObject>, name: string) {
    Entry(o, "/Type") == Some("/Font") && Entry(o, "/Subtype") == Some("/Type1") && Entry(o, "/BaseFont") == Some(name)
  }

  predicate IsImage(o: Option<PdfObject>, img: Jpeg) {
    && o.Some? && o.value.stream == Some(img.data)
    && Entry(o, "/Type") == Some("/XObject") && Entry(o, "/Subtype") == Some("/Image")
    && Number(Entry(o, "/Width")) == Some(img.width) && Number(Entry(o, "/Height")) == Some(img.height)
    && Entry(o, "/ColorSpace") == Some("/DeviceRGB") && Entry(o, "/BitsPerComponent") == Some("8")
    && Entry(o, "/Filter") == Some("/DCTDecode")
  }

  predicate IsStamp(o: Option<PdfObject>) {
    Entry(o, "/Type") == Some("/ExtGState") && Entry(o, "/ca") == Some("0.14") && Entry(o, "/CA") == Some("0.14")
  }

  /** The page is 595 wide and reaches from `bottom` tenths, kept within 0 and 642.0, up to 842. */
  predicate IsBoxFrom(text: Option<string>, bottom: int) {
    var b: nat := if bottom < 0 then 0 else if bottom > 6420 then 6420 else bottom;
    text == Some("[0 " + (Dec(b / 10) + "." + Dec(b % 10)) + " 595 842]")
  }

  /** From the root a reader comes to a catalogue, from there to a page tree of one page, whose text is
      `content`, whose fonts are Helvetica and Helvetica-Bold, and which names an image and a stamp exactly
      when the invoice has them. */
  predicate ShowsInvoice(f: PdfFile, content: Bytes, img: Option<Jpeg>, watermark: bool, bottom: int) {
    var catalog := ObjectOf(f, Some(f.root));
    var pages := Follow(f, catalog, "/Pages");
    var page := OnlyKid(f, pages);
    var text := Follow(f, page, "/Contents");
    var image := ResourceOf(f, page, "/XObject", "/Im1");
    var stamp := ResourceOf(f, page, "/ExtGState", "/GS1");
    && Entry(catalog, "/Type") == Some("/Catalog")
    && Entry(pages, "/Type") == Some("/Pages") && Entry(pages, "/Count") == Some("1")
    && Entry(page, "/Type") == Some("/Page") && Follow(f, page, "/Parent") == pages
    && IsBoxFrom(Entry(page, "/MediaBox"), bottom) && IsBoxFrom(Entry(page, "/CropBox"), bottom)
    && text.Some? && text.value.stream == Some(content)
    && IsFont(ResourceOf(f, page, "/Font", "/F1"), "/Helvetica")
    && IsFont(ResourceOf(f, page, "/Font", "/F2"), "/Helvetica-Bold")
    && (if img.Some? && img.value.data != "" then IsImage(image, img.value) else image == None)
    && (if watermark then IsStamp(stamp) else stamp == None)
  }

  lemma CatalogEntries()
    ensures FindText(CATALOG.dict, "/Type") == Some("/Catalog") && RefOf(FindText(CATALOG.dict, "/Pages")) == Some(2)
  {
    RefReads(2);
    hide Find, Ref, RefOf;
    Finds("/Pages", Text(Ref(2)), End);
    Finds("/Type", Text("/Catalog"), CATALOG.dict.rest);
    assert "/Pages" != "/Type";
  }

  lemma PagesEntries()
    ensures FindText(PAGES.dict, "/Type") == Some("/Pages") && FindText(PAGES.dict, "/Count") == Some("1")
    ensures FindText(PAGES.dict, "/Kids") == Some("[" + Ref(3) + "]")
  {
    hide Find, Ref;
    var kids := PAGES.dict.rest;
    Finds("/Type", Text("/Pages"), kids);
    Finds("/Kids", Text("[" + Ref(3) + "]"), kids.rest);
    Finds("/Count", Text("1"), End);
    assert "/Type" != "/Count" && "/Kids" != "/Count";
    assert "/Type"[1] != "/Kids"[1];
  }

  lemma FontEntries(name: string)
    ensures IsFont(Some(FontObject(name)), name)
  {
    hide Find;
    var d := FontObject(name).dict;
    Finds("/Type", Text("/Font"), d.rest);
    Finds("/Subtype", Text("/Type1"), d.rest.rest);
    Finds("/BaseFont", Text(name), End);
    assert "/Type" != "/Subtype" && "/Type" != "/BaseFont" && "/Subtype" != "/BaseFont";
  }

  lemma StampEntries()
    ensures IsStamp(Some(STAMP_STATE))
  {
    hide Find;
    var d := STAMP_STATE.dict;
    Finds("/Type", Text("/ExtGState"), d.rest);
    Finds("/ca", Text("0.14"), d.rest.rest);
    Finds("/CA", Text("0.14"), End);
    assert "/Type" != "/ca" && "/Type" != "/CA";
    assert "/ca"[1] != "/CA"[1];
  }

  lemma ImageShown(img: Jpeg)
    ensures IsImage(Some(ImageObject(img)), img)
  {
    ImageEntries(img);
    NumberOfDec(img.width);
    NumberOfDec(img.height);
    hide FindText, Number;
  }

  lemma PageKeys()
    ensures "/Type" != "/Parent" && "/Type" != "/MediaBox" && "/Type" != "/CropBox" && "/Type" != "/Contents"
    ensures "/Type" != "/Resources" && "/Parent" != "/MediaBox" && "/Parent" != "/CropBox"
    ensures "/Parent" != "/Contents" && "/Parent" != "/Resources" && "/MediaBox" != "/CropBox"
    ensures "/MediaBox" != "/Contents" && "/MediaBox" != "/Resources" && "/CropBox" != "/Contents"
    ensures "/CropBox" != "/Resources" && "/Contents" != "/Resources"
  {
  }

  lemma PageEntries(bottom: string, resources: Dict)
    ensures var d := PageDict(bottom, resources);
            && FindText(d, "/Type") == Some("/Page") && FindText(d, "/Parent") == Some(Ref(2))
            && FindText(d, "/MediaBox") == Some(Box(bottom)) && FindText(d, "/CropBox") == Some(Box(bottom))
            && FindText(d, "/Contents") == Some(Ref(4)) && FindDict(d, "/Resources") == resources
  {
    PageKeys();
    hide Find, Ref, Box;
    var d := PageDict(bottom, resources);
    var parent := d.rest;
    var media := parent.rest;
    var crop := media.rest;
    var contents := crop.rest;
    Finds("/Type", Text("/Page"), parent);
    Finds("/Parent", Text(Ref(2)), media);
    Finds("/MediaBox", Text(Box(bottom)), crop);
    Finds("/CropBox", Text(Box(bottom)), contents);
    Finds("/Contents", Text(Ref(4)), contents.rest);
    Finds("/Resources", Sub(resources), End);
  }

  lemma ResourceEntries(image: Option<nat>, stamp: Option<nat>)
    ensures var d := Resources(image, stamp);
            && RefOf(FindText(FindDict(d, "/Font"), "/F1")) == Some(5)
            && RefOf(FindText(FindDict(d, "/Font"), "/F2")) == Some(6)
            && RefOf(FindText(FindDict(d, "/XObject"), "/Im1")) == image
            && RefOf(FindText(FindDict(d, "/ExtGState"), "/GS1")) == stamp
  {
    RefReads(5);
    RefReads(6);
    if image.Some? {
      RefReads(image.value);
    }
    if stamp.Some? {
      RefReads(stamp.value);
    }
    hide Ref, ReadNumber;
    var fonts := FONTS.dict;
    FontsFound();
    ResourceCategories(image, stamp);
  }

  lemma FontsFound()
    ensures FindText(FONTS.dict, "/F1") == Some(Ref(5)) && FindText(FONTS.dict, "/F2") == Some(Ref(6))
  {
    hide Find, Ref;
    Finds("/F1", Text(Ref(5)), FONTS.dict.rest);
    Finds("/F2", Text(Ref(6)), End);
    assert "/F1"[2] != "/F2"[2];
  }

  lemma ResourceCategories(image: Option<nat>, stamp: Option<nat>)
    ensures var d := Resources(image, stamp);
            && FindDict(d, "/Font") == FONTS.dict
            && FindText(FindDict(d, "/XObject"), "/Im1") == (if image.Some? then Some(Ref(image.value)) else None)
            && FindText(FindDict(d, "/ExtGState"), "/GS1") == (if stamp.Some? then Some(Ref(stamp.value)) else None)
  {
    hide Ref;
    assert "/Font" != "/XObject" && "/Font" != "/ExtGState" && "/XObject" != "/ExtGState";
    var s := StampResource(stamp);
    var i := ImageResource(image, s);
    Finds("/Font", FONTS, i);
    if stamp.Some? {
      Finds("/ExtGState", s.value, End);
      Finds("/GS1", Text(Ref(stamp.value)), End);
    }
    if image.Some? {
      Finds("/XObject", i.value, s);
      Finds("/Im1", Text(Ref(image.value)), End);
    }
    hide Find, FONTS;
  }

  lemma PageShown(img: Option<Jpeg>, watermark: bool, bottom: int)
    ensures var d := PageObject(img, watermark, bottom).dict;
            && FindText(d, "/Type") == Some("/Page") && RefOf(FindText(d, "/Parent")) == Some(2)
            && RefOf(FindText(d, "/Contents")) == Some(4)
            && IsBoxFrom(FindText(d, "/MediaBox"), bottom) && IsBoxFrom(FindText(d, "/CropBox"), bottom)
            && FindDict(d, "/Resources") == Resources(ImageNumber(img), StampNumber(img, watermark))
  {
    RefReads(2);
    RefReads(4);
    PageEntries(Tenths(ClampBottom(bottom)), Resources(ImageNumber(img), StampNumber(img, watermark)));
    hide FindText, FindDict, Ref, RefOf, Dec, Resources;
  }

  lemma KidRead(n: nat)
    ensures var t := "[" + Ref(n) + "]";
            2 <= |t| && t[0] == '[' && t[|t| - 1] == ']' && RefOf(Some(t[1..|t| - 1])) == Some(n)
  {
    RefReads(n);
    var t := "[" + Ref(n) + "]";
    assert t[1..|t| - 1] == Ref(n);
  }

  /** The objects of the file, by number. */
  lemma ObjectsByNumber(content: Bytes, img: Option<Jpeg>, watermark: bool, bottom: int)
    ensures var f := PdfFile(1, Objects(content, img, watermark, bottom));
            && ObjectOf(f, Some(1)) == Some(CATALOG) && ObjectOf(f, Some(2)) == Some(PAGES)
            && ObjectOf(f, Some(3)) == Some(PageObject(img, watermark, bottom))
            && ObjectOf(f, Some(4)) == Some(ContentObject(content))
            && ObjectOf(f, Some(5)) == Some(FontObject("/Helvetica"))
            && ObjectOf(f, Some(6)) == Some(FontObject("/Helvetica-Bold"))
            && ObjectOf(f, ImageNumber(img)) == (if HasImage(img) then Some(ImageObject(img.value)) else None)
            && ObjectOf(f, StampNumber(img, watermark)) == (if watermark then Some(STAMP_STATE) else None)
  {
    hide CATALOG, PAGES, STAMP_STATE, PageObject, ContentObject, FontObject, ImageObject;
  }

  /** The walk from the root to the page. */
  lemma TreeWalk(content: Bytes, img: Option<Jpeg>, watermark: bool, bottom: int)
    ensures var f := PdfFile(1, Objects(content, img, watermark, bottom));
            var page := PageObject(img, watermark, bottom);
            && ObjectOf(f, Some(f.root)) == Some(CATALOG)
            && Follow(f, Some(CATALOG), "/Pages") == Some(PAGES)
            && OnlyKid(f, Some(PAGES)) == Some(page) && Follow(f, Some(page), "/Parent") == Some(PAGES)
            && Follow(f, Some(page), "/Contents") == Some(ContentObject(content))
  {
    ObjectsByNumber(content, img, watermark, bottom);
    CatalogEntries();
    PagesEntries();
    KidRead(3);
    PageShown(img, watermark, bottom);
    hide FindText, FindDict, Ref, RefOf, Resources, PageObject, ObjectOf, CATALOG, PAGES, ContentObject, Objects;
  }

  lemma ResourceWalk(content: Bytes, img: Option<Jpeg>, watermark: bool, bottom: int)
    ensures var f := PdfFile(1, Objects(content, img, watermark, bottom));
            var page := Some(PageObject(img, watermark, bottom));
            && ResourceOf(f, page, "/Font", "/F1") == Some(FontObject("/Helvetica"))
            && ResourceOf(f, page, "/Font", "/F2") == Some(FontObject("/Helvetica-Bold"))
            && ResourceOf(f, page, "/XObject", "/Im1") == (if HasImage(img) then Some(ImageObject(img.value)) else None)
            && ResourceOf(f, page, "/ExtGState", "/GS1") == (if watermark then Some(STAMP_STATE) else None)
  {
    ObjectsByNumber(content, img, watermark, bottom);
    PageShown(img, watermark, bottom);
    ResourceEntries(ImageNumber(img), StampNumber(img, watermark));
    hide FindText, FindDict, Ref, RefOf, Resources, PageObject, FontObject, ImageObject, ObjectOf, Objects;
    hide STAMP_STATE, ImageNumber, StampNumber, HasImage;
  }

  lemma ObjectsShowInvoice(content: Bytes, img: Option<Jpeg>, watermark: bool, bottom: int)
    ensures ShowsInvoice(PdfFile(1, Objects(content, img, watermark, bottom)), content, img, watermark, bottom)
  {
    TreeWalk(content, img, watermark, bottom);
    ResourceWalk(content, img, watermark, bottom);
    CatalogEntries();
    PagesEntries();
    PageShown(img, watermark, bottom);
    FontEntries("/Helvetica");
    FontEntries("/Helvetica-Bold");
    StampEntries();
    if HasImage(img) {
      ImageShown(img.value);
    }
    hide FindText, FindDict, Ref, RefOf, Resources, PageObject, FontObject, ImageObject, ObjectOf, Objects;
    hide IsFont, IsImage, IsStamp, IsBoxFrom, Follow, OnlyKid, ResourceOf, CATALOG, PAGES, STAMP_STATE;
  }

  /** Whoever reads a built file from its trailer finds the invoice on its page, for any content, image,
      watermark and page bottom; only a file of more than 10^10 bytes may be unreadable. */
  lemma BuiltFileShowsTheInvoice(content: Bytes, img: Option<Jpeg>, watermark: bool, bottom: int)
    ensures var pdf := File(content, img, watermark, bottom);
            match ReadFile(pdf)
            case Some(f) => ShowsInvoice(f, content, img, watermark, bottom)
            case None => 10_000_000_000 < |pdf|
  {
    var objects := Objects(content, img, watermark, bottom);
    InvoiceReadsBack(content, img, watermark, bottom);
    ObjectsShowInvoice(content, img, watermark, bottom);
    LastOffsetInside(objects);
    hide Objects, ShowsInvoice, Offset, Document, ReadFile;
  }

  lemma LastOffsetInside(objects: seq<PdfObject>)
    requires objects != []
    ensures Offset(objects, |objects|) < |Document(objects)|
  {
    PrefixGrows(objects, |objects| - 1, |objects|);
    hide Prefix, Entries, Table;
    assert Table(|objects| + 1, Entries(objects, |objects|), |Prefix(objects, |objects|)|) != "" by {
      TableIsThere(|objects| + 1, Entries(objects, |objects|), |Prefix(objects, |objects|)|);
    }
  }

  lemma TableIsThere(size: nat, entries: Bytes, startXref: nat)
    ensures Table(size, entries, startXref) != ""
  {
  }

  /** A canvas that drew an image or a stamp finds it in the file it builds. */
  lemma DrawnNamesResolve(c: Canvas)
    requires c.Valid()
    ensures match ReadFile(File(c.buf, c.img, c.watermark, c.mediaBottom))
            case None => true
            case Some(f) =>
              var page := OnlyKid(f, Follow(f, ObjectOf(f, Some(f.root)), "/Pages"));
              && (c.drewImage ==> c.img.Some? && IsImage(ResourceOf(f, page, "/XObject", "/Im1"), c.img.value))
              && (c.drewStamp ==> IsStamp(ResourceOf(f, page, "/ExtGState", "/GS1")))
  {
    BuiltFileShowsTheInvoice(c.buf, c.img, c.watermark, c.mediaBottom);
    hide ReadFile, File, OnlyKid, Follow, ObjectOf, ResourceOf, IsImage, IsStamp;
  }

  // ----- Spelling -----

  lemma TrailerSpelled(size: nat)
    ensures Show(TrailerDict(size)) == "<< /Size " + Dec(size) + " /Root 1 0 R >>"
  {
    RootSpelled();
    hide Dec, Ref;
    assert ShowEntries(TrailerDict(size)) == "/Size" + (" " + (Dec(size) + (" " + "/Root 1 0 R >>")));
    hide ShowEntries;
    assert "<< " + ("/Size" + " ") == "<< /Size " && " " + "/Root 1 0 R >>" == " /Root 1 0 R >>";
  }

  lemma RootSpelled()
    ensures ShowEntries(With("/Root", Text(Ref(1)), End)) == "/Root 1 0 R >>"
  {
    assert Dec(1) == "1";
    assert ShowEntries(End) == ">>";
    assert "/Root" + (" " + ("1 0 R" + (" " + ">>"))) == "/Root 1 0 R >>";
  }
}
