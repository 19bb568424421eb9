/**
 * The four scenarios of the parser test, stated about the test copy of the
 * parser (optional rupee sign, no keyword check).
 *
 * Each message is given as its lines; `Render` joins them as
 * `Tag: value` lines separated by newlines, which is the text the test
 * writes out.
 */
module ParserScenarios {
  import opened Wrappers
  import opened JsText
  import opened ListingParser
  import opened ListingFormat

  // ---------------------------------------------------------------- reading one line's field

  lemma NamePlain(f: Field)
    ensures Plain(FieldName(f)) && FieldName(f) != []
  {}

  /** The field's pattern reads the message's lines, as it does on a well-formed message. */
  predicate Reads(ls: seq<FieldLine>, f: Field) {
    FieldMatch(Render(ls), Rupee, f) == Found(ls, f)
  }

  /** What the field's pattern finds, line by line. */
  function Found(ls: seq<FieldLine>, f: Field): Option<string> {
    Lookup(ls, FieldName(f), PatternOf(f, Rupee))
  }

  lemma WellFormedReads(ls: seq<FieldLine>, f: Field)
    requires WellFormed(ls)
    ensures Reads(ls, f)
  {
    NamePlain(f);
    ExtractRendered(ls, FieldName(f), PatternOf(f, Rupee));
  }

  /** A value that the one-line pattern captures whole: plain, and neither starting nor ending in white space. */
  predicate Clean(v: string) {
    Plain(v) && v != [] && !IsSpace(v[0]) && !IsSpace(v[|v| - 1])
  }

  /** A field whose first matching line is `ls[i]`, read with the one-line pattern. */
  lemma LineField(ls: seq<FieldLine>, i: nat, f: Field)
    requires i < |ls| && PatternOf(f, Rupee) == Line
    requires forall j :: 0 <= j < i ==> !SuffixCI(ls[j].tag, FieldName(f))
    requires SuffixCI(ls[i].tag, FieldName(f))
    requires Clean(ls[i].value)
    ensures Found(ls, f) == Some(ls[i].value)
  {
    MatchLine(ls[i].value, Rest(ls[i + 1..]));
    TrimUnchanged(ls[i].value);
    LookupAt(ls, FieldName(f), Line, i);
  }

  /** A price line `ls[i]` whose value is the digits `d`, with or without a rupee sign. */
  lemma PriceField(ls: seq<FieldLine>, i: nat, d: string)
    requires i < |ls|
    requires forall j :: 0 <= j < i ==> !SuffixCI(ls[j].tag, "price")
    requires SuffixCI(ls[i].tag, "price")
    requires d != [] && forall k :: 0 <= k < |d| ==> IsDigitOrComma(d[k])
    requires ls[i].value == d || ls[i].value == ['\U{20B9}'] + d
    ensures Found(ls, Price) == Some(d)
  {
    var shape := Digits("", Some('\U{20B9}'));
    MatchDigits(Some('\U{20B9}'), ls[i].value, d, Rest(ls[i + 1..]));
    PriceName();
    LookupAt(ls, "price", shape, i);
  }

  /** An hours line `ls[i]` whose value is the digits `d`. */
  lemma HoursField(ls: seq<FieldLine>, i: nat, d: string)
    requires i < |ls|
    requires forall j :: 0 <= j < i ==> !SuffixCI(ls[j].tag, "hours")
    requires SuffixCI(ls[i].tag, "hours")
    requires d != [] && forall k :: 0 <= k < |d| ==> IsDigitOrComma(d[k])
    requires ls[i].value == d
    ensures Found(ls, Hours) == Some(d)
  {
    var shape := Digits("", None);
    MatchDigits(None, ls[i].value, d, Rest(ls[i + 1..]));
    HoursName();
    LookupAt(ls, "hours", shape, i);
  }

  lemma HoursName()
    ensures FieldName(Hours) == "hours" && PatternOf(Hours, Rupee) == Digits("", None)
  {
  }

  lemma PriceName()
    ensures FieldName(Price) == "price" && PatternOf(Price, Rupee) == Digits("", Some('\U{20B9}'))
  {
  }

  /** No line of the message has a tag ending with the field's name: the pattern finds nothing. */
  lemma AbsentField(ls: seq<FieldLine>, f: Field)
    requires forall j :: 0 <= j < |ls| ==> !SuffixCI(ls[j].tag, FieldName(f))
    ensures Found(ls, f).None?
  {
    LookupNone(ls, FieldName(f), PatternOf(f, Rupee));
  }

  /** A price pattern that finds no figure after the price line's label moves on to the later lines. */
  lemma PriceLineWithoutFigure(ls: seq<FieldLine>, i: nat)
    requires i < |ls|
    requires forall j :: 0 <= j < i ==> !SuffixCI(ls[j].tag, "price")
    requires forall j :: i < j < |ls| ==> !SuffixCI(ls[j].tag, "price")
    requires ls[i].value != [] && !IsSpace(ls[i].value[0]) && !IsDigitOrComma(ls[i].value[0])
    requires ls[i].value[0] != '\U{20B9}'
    ensures Found(ls, Price).None?
  {
    PriceLookupSkips(ls, i);
  }

  lemma PriceLookupSkips(ls: seq<FieldLine>, i: nat)
    requires i < |ls|
    requires forall j :: 0 <= j < i ==> !SuffixCI(ls[j].tag, "price")
    requires forall j :: i < j < |ls| ==> !SuffixCI(ls[j].tag, "price")
    requires ls[i].value != [] && !IsSpace(ls[i].value[0]) && !IsDigitOrComma(ls[i].value[0])
    requires ls[i].value[0] != '\U{20B9}'
    ensures Lookup(ls, "price", PatternOf(Price, Rupee)).None?
  {
    var shape := PatternOf(Price, Rupee);
    LookupFrom(ls, "price", shape, i);
    assert MatchAfterLabel(" " + ls[i].value + Rest(ls[i + 1..]), shape).None? by {
      CaselessClass(ls[i].value[0], '\U{20B9}');
      MatchDigitsReject(Some('\U{20B9}'), ls[i].value, Rest(ls[i + 1..]));
    }
    assert ls[i..][0] == ls[i] && ls[i..][1..] == ls[i + 1..];
    LookupNone(ls[i + 1..], "price", shape);
  }

  // ---------------------------------------------------------------- plain pieces

  lemma TagsPlain()
    ensures Plain("Type") && Plain("Brand") && Plain("Model") && Plain("Price")
    ensures Plain("Hours") && Plain("Location") && Plain("Contact") && Plain("Description")
  {}

  lemma TypePlain() ensures Plain("Used Generator") {}
  lemma KirloskarPlain() ensures Plain("Kirloskar") && Plain("KG1-62.5AS") {}
  lemma FiguresPlain() ensures Plain("\U{20B9}850000") && Plain("12500") && Plain("invalid") {}
  lemma MumbaiPlain() ensures Plain("Mumbai, Maharashtra") {}
  lemma ContactPlain() ensures Plain("+91 98765 43210") {}
  lemma MahindraPlain() ensures Plain("Mahindra") && Plain("MDG-125") && Plain("Delhi, India") {}

  lemma KirloskarClean()
    ensures Clean("Kirloskar") && Clean("KG1-62.5AS") && Clean("Mumbai, Maharashtra")
  {
    KirloskarPlain();
    MumbaiPlain();
  }

  lemma MahindraClean()
    ensures Clean("Mahindra") && Clean("MDG-125") && Clean("Delhi, India")
  {
    MahindraPlain();
  }
  lemma CommaFiguresPlain() ensures Plain("\U{20B9}12,50,000") && Plain("8,500") {}
  lemma ShortDescriptionPlain() ensures Plain("Some description") {}

  /** Each field's own tag, capitalised as the messages write it, ends with the field's name. */
  lemma BrandTag() ensures SuffixCI("Brand", "brand") { assert "Brand"[0..] == "Brand"; }
  lemma ModelTag() ensures SuffixCI("Model", "model") { assert "Model"[0..] == "Model"; }
  lemma PriceTag() ensures SuffixCI("Price", "price") { assert "Price"[0..] == "Price"; }
  lemma HoursTag() ensures SuffixCI("Hours", "hours") { assert "Hours"[0..] == "Hours"; }
  lemma LocationTag() ensures SuffixCI("Location", "location") { assert "Location"[0..] == "Location"; }

  /** A tag that ends, without case, in a different letter than the field name does not end with it. */
  lemma LastLetterMiss(tag: string, field: string)
    requires tag != [] && field != []
    requires LowerChar(tag[|tag| - 1]) != field[|field| - 1]
    ensures !SuffixCI(tag, field)
  {
    if |field| <= |tag| {
      var t := tag[|tag| - |field|..];
      assert t[|t| - 1] == tag[|tag| - 1];
      assert Lower(t)[|t| - 1] == LowerChar(tag[|tag| - 1]);
    }
  }

  /** The extraction loop records the five required fields with their captures. */
  lemma CapturedRequired(s: string, brand: string, model: string, price: string, hours: string, location: string)
    requires brand != [] && model != [] && price != [] && hours != [] && location != []
    requires FieldMatch(s, Rupee, Brand) == Some(brand) && FieldMatch(s, Rupee, Model) == Some(model)
    requires FieldMatch(s, Rupee, Price) == Some(price) && FieldMatch(s, Rupee, Hours) == Some(hours)
    requires FieldMatch(s, Rupee, Location) == Some(location)
    ensures var data := Captured(s, Rupee, Fields);
      Present(data, Brand) && data[Brand] == brand && Present(data, Model) && data[Model] == model
      && Present(data, Price) && data[Price] == price && Present(data, Hours) && data[Hours] == hours
      && Present(data, Location) && data[Location] == location
  {
    CapturedField(s, Rupee, Fields, Brand);
    CapturedField(s, Rupee, Fields, Model);
    CapturedField(s, Rupee, Fields, Price);
    CapturedField(s, Rupee, Fields, Hours);
    CapturedField(s, Rupee, Fields, Location);
  }

  /**
   * A message in which the five required fields are captured non-empty, the
   * price cleans to a positive number and the hours to digits parses with
   * the test copy, and the figures are the cleaned values.
   */
  lemma CompleteListing(s: string, brand: string, model: string, price: string, hours: string, location: string,
                        pd: string, hd: string)
    requires brand != [] && model != [] && location != []
    requires FieldMatch(s, Rupee, Brand) == Some(brand) && FieldMatch(s, Rupee, Model) == Some(model)
    requires FieldMatch(s, Rupee, Price) == Some(price) && FieldMatch(s, Rupee, Hours) == Some(hours)
    requires FieldMatch(s, Rupee, Location) == Some(location)
    requires Strip(price, Some(Rupee)) == pd && pd != [] && AllDigits(pd) && DecimalValue(pd) > 0
    requires Strip(hours, None) == hd && hd != [] && AllDigits(hd)
    ensures var r := TestCopyParse(Some(s));
      r.success && r.data.Some?
      && r.data.value.brand == brand && r.data.value.model == model && r.data.value.locationText == location
      && r.data.value.price == Num(DecimalValue(pd)) && r.data.value.hoursRun == Num(DecimalValue(hd))
  {
    var data := Captured(s, Rupee, Fields);
    CapturedRequired(s, brand, model, price, hours, location);
    PriceName();
    HoursName();
    PriceChecked(data, Rupee);
    HoursChecked(data);
    CleanOutcome(s, data, pd, hd);
  }

  /** With every required field present and both figures clean, the test copy reports no error. */
  lemma CleanOutcome(s: string, data: map<Field, string>, pd: string, hd: string)
    requires Present(data, Brand) && Present(data, Model) && Present(data, Price)
    requires Present(data, Hours) && Present(data, Location)
    requires AllDigits(pd) && AllDigits(hd)
    requires CheckedPrice(data, Rupee) == (Some(Num(DecimalValue(pd))), [])
    requires CheckedHours(data) == (Some(Num(DecimalValue(hd))), [])
    ensures var r := Outcome(s, data, Rupee, false);
      r.success && r.data.Some?
      && r.data.value.brand == data[Brand] && r.data.value.model == data[Model]
      && r.data.value.locationText == data[Location]
      && r.data.value.price == Num(DecimalValue(pd)) && r.data.value.hoursRun == Num(DecimalValue(hd))
  {
    MissingNone(data, RequiredFields);
  }

  // ---------------------------------------------------------------- test 1: a complete listing

  const KirloskarDescription: string :=
    "Excellent " + "condition " + "diesel " + "generator, " + "well " + "maintained " + "with all " + "documents."

  /** The tags of the first five lines of both listing messages, in their order. */
  predicate StandardHead(ls: seq<FieldLine>) {
    |ls| >= 5 && ls[0].tag == "Type" && ls[1].tag == "Brand" && ls[2].tag == "Model"
    && ls[3].tag == "Price" && ls[4].tag == "Hours"
  }

  lemma BrandNotBefore(ls: seq<FieldLine>)
    requires StandardHead(ls)
    ensures forall j :: 0 <= j < 1 ==> !SuffixCI(ls[j].tag, "brand")
  {
    assert !SuffixCI("Type", "brand");
  }

  lemma ModelNotBefore(ls: seq<FieldLine>)
    requires StandardHead(ls)
    ensures forall j :: 0 <= j < 2 ==> !SuffixCI(ls[j].tag, "model")
  {
    LastLetterMiss("Brand", "model");
    assert !SuffixCI("Type", "model");
  }

  lemma PriceNotBefore(ls: seq<FieldLine>)
    requires StandardHead(ls)
    ensures forall j :: 0 <= j < 3 ==> !SuffixCI(ls[j].tag, "price")
  {
    LastLetterMiss("Brand", "price");
    LastLetterMiss("Model", "price");
    assert !SuffixCI("Type", "price");
  }

  lemma HoursNotBefore(ls: seq<FieldLine>)
    requires StandardHead(ls)
    ensures forall j :: 0 <= j < 4 ==> !SuffixCI(ls[j].tag, "hours")
  {
    LastLetterMiss("Brand", "hours");
    LastLetterMiss("Model", "hours");
    LastLetterMiss("Price", "hours");
    assert !SuffixCI("Type", "hours");
  }

  lemma LocationNotBefore(ls: seq<FieldLine>)
    requires StandardHead(ls)
    ensures forall j :: 0 <= j < 5 ==> !SuffixCI(ls[j].tag, "location")
  {
    LastLetterMiss("Type", "location");
    LastLetterMiss("Brand", "location");
    LastLetterMiss("Model", "location");
    LastLetterMiss("Price", "location");
    LastLetterMiss("Hours", "location");
  }

  predicate IsKirloskar(ls: seq<FieldLine>) {
    |ls| == 8
    && ls[0] == FieldLine("Type", "Used Generator")
    && ls[1] == FieldLine("Brand", "Kirloskar")
    && ls[2] == FieldLine("Model", "KG1-62.5AS")
    && ls[3] == FieldLine("Price", "\U{20B9}850000")
    && ls[4] == FieldLine("Hours", "12500")
    && ls[5] == FieldLine("Location", "Mumbai, Maharashtra")
    && ls[6] == FieldLine("Contact", "+91 98765 43210")
    && ls[7] == FieldLine("Description", KirloskarDescription)
  }

  lemma KirloskarDescriptionPlain()
    ensures Plain(KirloskarDescription)
  {
    assert Plain("Excellent ") && Plain("condition ") && Plain("diesel ") && Plain("generator, ");
    assert Plain("well ") && Plain("maintained ") && Plain("with all ") && Plain("documents.");
    var a := "Excellent " + "condition ";
    PlainAppend("Excellent ", "condition ");
    PlainAppend(a, "diesel ");
    PlainAppend(a + "diesel ", "generator, ");
    var b := a + "diesel " + "generator, ";
    PlainAppend(b, "well ");
    PlainAppend(b + "well ", "maintained ");
    PlainAppend(b + "well " + "maintained ", "with all ");
    PlainAppend(b + "well " + "maintained " + "with all ", "documents.");
  }

  lemma KirloskarWellFormed(ls: seq<FieldLine>)
    requires IsKirloskar(ls)
    ensures WellFormed(ls)
  {
    TagsPlain(); TypePlain(); KirloskarPlain(); FiguresPlain(); MumbaiPlain(); ContactPlain();
    KirloskarDescriptionPlain();
    forall i | 0 <= i < |ls| ensures Plain(ls[i].tag) && Plain(ls[i].value) {
      if i == 0 {} else if i == 1 {} else if i == 2 {} else if i == 3 {}
      else if i == 4 {} else if i == 5 {} else if i == 6 {} else {}
    }
  }

  lemma KirloskarBrand(ls: seq<FieldLine>)
    requires IsKirloskar(ls)
    ensures Found(ls, Brand) == Some("Kirloskar")
  {
    BrandNotBefore(ls);
    BrandTag();
    KirloskarClean();
    LineField(ls, 1, Brand);
  }

  lemma KirloskarModel(ls: seq<FieldLine>)
    requires IsKirloskar(ls)
    ensures Found(ls, Model) == Some("KG1-62.5AS")
  {
    ModelNotBefore(ls);
    ModelTag();
    KirloskarClean();
    LineField(ls, 2, Model);
  }

  lemma KirloskarPrice(ls: seq<FieldLine>)
    requires IsKirloskar(ls)
    ensures Found(ls, Price) == Some("850000")
  {
    PriceNotBefore(ls);
    PriceTag();
    assert ls[3].value == ['\U{20B9}'] + "850000";
    PriceField(ls, 3, "850000");
  }

  lemma KirloskarHours(ls: seq<FieldLine>)
    requires IsKirloskar(ls)
    ensures Found(ls, Hours) == Some("12500")
  {
    HoursNotBefore(ls);
    HoursTag();
    HoursField(ls, 4, "12500");
  }

  lemma KirloskarLocation(ls: seq<FieldLine>)
    requires IsKirloskar(ls)
    ensures Found(ls, Location) == Some("Mumbai, Maharashtra")
  {
    LocationNotBefore(ls);
    LocationTag();
    KirloskarClean();
    LineField(ls, 5, Location);
  }

  lemma KirloskarPriceStrip() ensures Strip("850000", Some(Rupee)) == "850000" {}
  lemma KirloskarHoursStrip() ensures Strip("12500", None) == "12500" {}

  lemma KirloskarPriceValue()
    ensures AllDigits("850000") && DecimalValue("850000") == 850000
  {
    DecimalSnoc("8", '5', "85");
    DecimalSnoc("85", '0', "850");
    DecimalSnoc("850", '0', "8500");
    DecimalSnoc("8500", '0', "85000");
    DecimalSnoc("85000", '0', "850000");
  }

  lemma KirloskarHoursValue()
    ensures AllDigits("12500") && DecimalValue("12500") == 12500
  {
    DecimalSnoc("1", '2', "12");
    DecimalSnoc("12", '5', "125");
    DecimalSnoc("125", '0', "1250");
    DecimalSnoc("1250", '0', "12500");
  }

  /**
   * Test 1: the complete listing parses, with brand "Kirloskar", model
   * "KG1-62.5AS", price 850000 and 12500 hours run.
   */
  lemma KirloskarParses(ls: seq<FieldLine>)
    requires IsKirloskar(ls)
    ensures var r := TestCopyParse(Some(Render(ls)));
      r.success && r.data.Some?
      && r.data.value.brand == "Kirloskar" && r.data.value.model == "KG1-62.5AS"
      && r.data.value.price == Num(850000) && r.data.value.hoursRun == Num(12500)
  {
    assert Reads(ls, Brand) && Reads(ls, Model) && Reads(ls, Price) && Reads(ls, Hours) && Reads(ls, Location) by {
      KirloskarWellFormed(ls);
      WellFormedReads(ls, Brand);
      WellFormedReads(ls, Model);
      WellFormedReads(ls, Price);
      WellFormedReads(ls, Hours);
      WellFormedReads(ls, Location);
    }
    KirloskarBrand(ls);
    KirloskarModel(ls);
    KirloskarPrice(ls);
    KirloskarHours(ls);
    KirloskarLocation(ls);
    KirloskarPriceStrip();
    KirloskarHoursStrip();
    KirloskarPriceValue();
    KirloskarHoursValue();
    CompleteListing(Render(ls), "Kirloskar", "KG1-62.5AS", "850000", "12500", "Mumbai, Maharashtra",
      "850000", "12500");
  }

  // ---------------------------------------------------------------- test 2: missing fields

  predicate IsIncomplete(ls: seq<FieldLine>) {
    |ls| == 3
    && ls[0] == FieldLine("Type", "Used Generator")
    && ls[1] == FieldLine("Brand", "Kirloskar")
    && ls[2] == FieldLine("Description", "Some description")
  }

  lemma IncompleteWellFormed(ls: seq<FieldLine>)
    requires IsIncomplete(ls)
    ensures WellFormed(ls)
  {
    TagsPlain(); TypePlain(); KirloskarPlain(); ShortDescriptionPlain();
    forall i | 0 <= i < |ls| ensures Plain(ls[i].tag) && Plain(ls[i].value) {
      if i == 0 {} else if i == 1 {} else {}
    }
  }

  lemma IncompleteLacksModel(ls: seq<FieldLine>)
    requires IsIncomplete(ls)
    ensures Found(ls, Model).None?
  {
    assert forall j :: 0 <= j < 3 ==> !SuffixCI(ls[j].tag, "model") by {
      LastLetterMiss("Brand", "model");
      LastLetterMiss("Description", "model");
      assert !SuffixCI("Type", "model");
    }
    AbsentField(ls, Model);
  }

  lemma IncompleteLacksPrice(ls: seq<FieldLine>)
    requires IsIncomplete(ls)
    ensures Found(ls, Price).None?
  {
    assert forall j :: 0 <= j < 3 ==> !SuffixCI(ls[j].tag, "price") by {
      LastLetterMiss("Brand", "price");
      LastLetterMiss("Description", "price");
      assert !SuffixCI("Type", "price");
    }
    AbsentField(ls, Price);
  }

  lemma IncompleteLacksHours(ls: seq<FieldLine>)
    requires IsIncomplete(ls)
    ensures Found(ls, Hours).None?
  {
    assert forall j :: 0 <= j < 3 ==> !SuffixCI(ls[j].tag, "hours") by {
      LastLetterMiss("Brand", "hours");
      LastLetterMiss("Description", "hours");
      assert !SuffixCI("Type", "hours");
    }
    AbsentField(ls, Hours);
  }

  /**
   * Test 2: a message with only type, brand and description fails, and
   * the missing model, price and hours are each reported.
   */
  lemma IncompleteFails(ls: seq<FieldLine>)
    requires IsIncomplete(ls)
    ensures var r := TestCopyParse(Some(Render(ls)));
      !r.success && |r.errors| > 0
      && MissingField(Model) in r.errors && MissingField(Price) in r.errors && MissingField(Hours) in r.errors
  {
    var s := Render(ls);
    assert Reads(ls, Model) && Reads(ls, Price) && Reads(ls, Hours) by {
      IncompleteWellFormed(ls);
      WellFormedReads(ls, Model);
      WellFormedReads(ls, Price);
      WellFormedReads(ls, Hours);
    }
    IncompleteLacksModel(ls);
    IncompleteLacksPrice(ls);
    IncompleteLacksHours(ls);
    MissingFieldReported(s, Rupee, false, Model);
    MissingFieldReported(s, Rupee, false, Price);
    MissingFieldReported(s, Rupee, false, Hours);
  }

  // ---------------------------------------------------------------- test 3: a price that is not a figure

  predicate IsWordPrice(ls: seq<FieldLine>) {
    |ls| == 6
    && ls[0] == FieldLine("Type", "Used Generator")
    && ls[1] == FieldLine("Brand", "Kirloskar")
    && ls[2] == FieldLine("Model", "KG1-62.5AS")
    && ls[3] == FieldLine("Price", "invalid")
    && ls[4] == FieldLine("Hours", "12500")
    && ls[5] == FieldLine("Location", "Mumbai, Maharashtra")
  }

  lemma WordPriceWellFormed(ls: seq<FieldLine>)
    requires IsWordPrice(ls)
    ensures WellFormed(ls)
  {
    TagsPlain(); TypePlain(); KirloskarPlain(); FiguresPlain(); MumbaiPlain();
    forall i | 0 <= i < |ls| ensures Plain(ls[i].tag) && Plain(ls[i].value) {
      if i == 0 {} else if i == 1 {} else if i == 2 {} else if i == 3 {} else if i == 4 {} else {}
    }
  }

  /** The price pattern needs a figure right after the label, so "invalid" is not captured. */
  lemma WordPriceNotCaptured(ls: seq<FieldLine>)
    requires IsWordPrice(ls)
    ensures Found(ls, Price).None?
  {
    assert !SuffixCI(ls[0].tag, "price");
    assert !SuffixCI(ls[1].tag, "price") by { LastLetterMiss("Brand", "price"); }
    assert !SuffixCI(ls[2].tag, "price") by { LastLetterMiss("Model", "price"); }
    assert !SuffixCI(ls[4].tag, "price") by { LastLetterMiss("Hours", "price"); }
    assert !SuffixCI(ls[5].tag, "price") by { LastLetterMiss("Location", "price"); }
    WordNotFigure();
    PriceLineWithoutFigure(ls, 3);
  }

  lemma WordNotFigure()
    ensures !IsSpace('i') && !IsDigitOrComma('i') && 'i' != '\U{20B9}'
  {}

  lemma MissingPriceText()
    ensures ErrorText(MissingField(Price)) == "Missing required field: price"
  {}

  /**
   * Test 3: "Price: invalid" fails with an error naming the price; that
   * error is the missing-field one, since the figure pattern captures
   * nothing, and "Invalid price format" is not reported.
   */
  lemma WordPriceFails(ls: seq<FieldLine>)
    requires IsWordPrice(ls)
    ensures var r := TestCopyParse(Some(Render(ls)));
      !r.success && MissingField(Price) in r.errors && InvalidPrice !in r.errors
      && ErrorText(MissingField(Price)) == "Missing required field: price"
  {
    var s := Render(ls);
    assert Reads(ls, Price) by {
      WordPriceWellFormed(ls);
      WellFormedReads(ls, Price);
    }
    WordPriceNotCaptured(ls);
    MissingFieldReported(s, Rupee, false, Price);
    PriceNotReportedInvalid(s);
    MissingPriceText();
  }

  /** A price the pattern did not capture is reported missing, never as malformed. */
  lemma PriceNotReportedInvalid(s: string)
    requires FieldMatch(s, Rupee, Price).None?
    ensures InvalidPrice !in TestCopyParse(Some(s)).errors
  {
    var data := Captured(s, Rupee, Fields);
    CapturedField(s, Rupee, Fields, Price);
    ErrorsOutsideMissing(s, data, Rupee, false, InvalidPrice);
    FormatErrorsMembers(s, data, Rupee, false);
  }

  // ---------------------------------------------------------------- test 4: figures with commas

  predicate IsMahindra(ls: seq<FieldLine>) {
    |ls| == 6
    && ls[0] == FieldLine("Type", "Used Generator")
    && ls[1] == FieldLine("Brand", "Mahindra")
    && ls[2] == FieldLine("Model", "MDG-125")
    && ls[3] == FieldLine("Price", "\U{20B9}12,50,000")
    && ls[4] == FieldLine("Hours", "8,500")
    && ls[5] == FieldLine("Location", "Delhi, India")
  }

  lemma MahindraWellFormed(ls: seq<FieldLine>)
    requires IsMahindra(ls)
    ensures WellFormed(ls)
  {
    TagsPlain(); TypePlain(); MahindraPlain(); CommaFiguresPlain();
    forall i | 0 <= i < |ls| ensures Plain(ls[i].tag) && Plain(ls[i].value) {
      if i == 0 {} else if i == 1 {} else if i == 2 {} else if i == 3 {} else if i == 4 {} else {}
    }
  }

  lemma MahindraBrand(ls: seq<FieldLine>)
    requires IsMahindra(ls)
    ensures Found(ls, Brand) == Some("Mahindra")
  {
    BrandNotBefore(ls);
    BrandTag();
    MahindraClean();
    LineField(ls, 1, Brand);
  }

  lemma MahindraModel(ls: seq<FieldLine>)
    requires IsMahindra(ls)
    ensures Found(ls, Model) == Some("MDG-125")
  {
    ModelNotBefore(ls);
    ModelTag();
    MahindraClean();
    LineField(ls, 2, Model);
  }

  lemma MahindraPrice(ls: seq<FieldLine>)
    requires IsMahindra(ls)
    ensures Found(ls, Price) == Some("12,50,000")
  {
    PriceNotBefore(ls);
    PriceTag();
    assert ls[3].value == ['\U{20B9}'] + "12,50,000";
    PriceField(ls, 3, "12,50,000");
  }

  lemma MahindraHours(ls: seq<FieldLine>)
    requires IsMahindra(ls)
    ensures Found(ls, Hours) == Some("8,500")
  {
    HoursNotBefore(ls);
    HoursTag();
    HoursField(ls, 4, "8,500");
  }

  lemma MahindraLocation(ls: seq<FieldLine>)
    requires IsMahindra(ls)
    ensures Found(ls, Location) == Some("Delhi, India")
  {
    LocationNotBefore(ls);
    LocationTag();
    MahindraClean();
    LineField(ls, 5, Location);
  }

  /** Stripping works character by character, so it distributes over concatenation. */
  lemma {:induction false} StripAppend(a: string, b: string, cur: Option<Currency>)
    ensures Strip(a + b, cur) == Strip(a, cur) + Strip(b, cur)
    decreases |a|
  {
    if a != [] {
      assert (a + b)[1..] == a[1..] + b;
      StripAppend(a[1..], b, cur);
    } else {
      assert a + b == b;
    }
  }

  lemma StripGroups()
    ensures Strip("12,", Some(Rupee)) == "12"
    ensures Strip("50,", Some(Rupee)) == "50"
    ensures Strip("000", Some(Rupee)) == "000"
  {
    assert "12,"[1..] == "2," && "2,"[1..] == ",";
    assert "50,"[1..] == "0," && "0,"[1..] == ",";
  }

  lemma MahindraPriceStrip()
    ensures Strip("12,50,000", Some(Rupee)) == "1250000"
  {
    StripGroups();
    StripLakh();
    StripAppend("12,50,", "000", Some(Rupee));
    LakhJoins();
  }

  lemma LakhJoins()
    ensures "12,50," + "000" == "12,50,000" && "1250" + "000" == "1250000"
  {
  }

  lemma StripLakh()
    ensures Strip("12,50,", Some(Rupee)) == "1250"
  {
    StripGroups();
    assert "12,50," == "12," + "50,";
    StripAppend("12,", "50,", Some(Rupee));
  }

  lemma MahindraHoursStrip() ensures Strip("8,500", None) == "8500" {}

  lemma MahindraPriceValue()
    ensures AllDigits("1250000") && DecimalValue("1250000") == 1250000
  {
    DecimalSnoc("1", '2', "12");
    DecimalSnoc("12", '5', "125");
    DecimalSnoc("125", '0', "1250");
    DecimalSnoc("1250", '0', "12500");
    DecimalSnoc("12500", '0', "125000");
    DecimalSnoc("125000", '0', "1250000");
  }

  lemma MahindraHoursValue()
    ensures AllDigits("8500") && DecimalValue("8500") == 8500
  {
    DecimalSnoc("8", '5', "85");
    DecimalSnoc("85", '0', "850");
    DecimalSnoc("850", '0', "8500");
  }

  /** Test 4: the price "\U{20B9}12,50,000" is read as 1250000 and the hours "8,500" as 8500, and the parse succeeds. */
  lemma CommaFiguresParse(ls: seq<FieldLine>)
    requires IsMahindra(ls)
    ensures var r := TestCopyParse(Some(Render(ls)));
      r.success && r.data.Some? && r.data.value.price == Num(1250000) && r.data.value.hoursRun == Num(8500)
  {
    assert Reads(ls, Brand) && Reads(ls, Model) && Reads(ls, Price) && Reads(ls, Hours) && Reads(ls, Location) by {
      MahindraWellFormed(ls);
      WellFormedReads(ls, Brand);
      WellFormedReads(ls, Model);
      WellFormedReads(ls, Price);
      WellFormedReads(ls, Hours);
      WellFormedReads(ls, Location);
    }
    MahindraBrand(ls);
    MahindraModel(ls);
    MahindraPrice(ls);
    MahindraHours(ls);
    MahindraLocation(ls);
    MahindraPriceStrip();
    MahindraHoursStrip();
    MahindraPriceValue();
    MahindraHoursValue();
    CompleteListing(Render(ls), "Mahindra", "MDG-125", "12,50,000", "8,500", "Delhi, India", "1250000", "8500");
  }
}
