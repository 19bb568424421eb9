/**
 * `parseGeneratorListing` of the message parser service and of its copy in
 * the parser test: each labelled field is located by a case-insensitive
 * regular expression, the required fields are checked in a fixed order,
 * price and hours are normalised to integers, and (in the service only) a
 * generator-keyword check runs last.
 *
 * Each regular expression `label:\s*...` is modelled by a scanner that
 * reproduces JavaScript's leftmost, backtracking match: the first position
 * where the label occurs and the rest of the pattern succeeds wins.
 */
module ListingParser {
  import opened Wrappers
  import opened JsText

  datatype Field = Type | Brand | Model | Price | Hours | Location | Contact | Description

  /** The fields in the order of the pattern table. */
  const Fields: seq<Field> := [Type, Brand, Model, Price, Hours, Location, Contact, Description]

  /** The fields whose absence is reported, in the order they are reported. */
  const RequiredFields: seq<Field> := [Brand, Model, Price, Hours, Location]

  function FieldName(f: Field): string {
    match f
    case Type => "type"
    case Brand => "brand"
    case Model => "model"
    case Price => "price"
    case Hours => "hours"
    case Location => "location"
    case Contact => "contact"
    case Description => "description"
  }

  function Label(f: Field): string { FieldName(f) + ":" }

  /**
   * The currency marker the price pattern accepts between `price:` and the
   * digits: a required prefix followed by one optional character.
   */
  datatype Currency = Currency(prefix: string, optional: char)

  /** `₹?`, the optional rupee sign of the test copy. */
  const Rupee: Currency := Currency("", '\U{20B9}')

  /** `â‚¹?`: the rupee sign's UTF-8 bytes read as Windows-1252, as the service has it. */
  const MisEncodedRupee: Currency := Currency("\U{00E2}\U{201A}", '\U{00B9}')

  /** How the text after a label is matched. */
  datatype Shape =
    | Line                                      // \s*(.+?)(?:\n|$)
    | Digits(prefix: string, optional: Option<char>) // \s*<prefix><optional>?\s*([0-9,]+)(?:\n|$)
    | Phone                                     // \s*([0-9+\s-]+)(?:\n|$)
    | Block                                     // \s*([\s\S]+?)(?:\n\n|$)

  function PatternOf(f: Field, cur: Currency): Shape {
    match f
    case Price => Digits(cur.prefix, Some(cur.optional))
    case Hours => Digits("", None)
    case Contact => Phone
    case Description => Block
    case _ => Line
  }

  // ---------------------------------------------------------------- scanners

  /** The first line terminator at or after `k`, or the end: where `.+` has to stop. */
  function LineEnd(t: string, k: nat): (e: nat)
    requires k <= |t|
    ensures k <= e <= |t|
    ensures forall m :: k <= m < e ==> !IsLineTerminator(t[m])
    ensures e == |t| || IsLineTerminator(t[e])
    decreases |t| - k
  {
    if k == |t| || IsLineTerminator(t[k]) then k else LineEnd(t, k + 1)
  }

  /** `(?:\n|$)` holds at `e` (without the `m` flag, `$` is the end of the text). */
  predicate EndsLine(t: string, e: nat)
    requires e <= |t|
  {
    e == |t| || t[e] == '\n'
  }

  /** `(.+?)(?:\n|$)` matches when started at `k`. */
  predicate LineMatchesAt(t: string, k: nat)
    requires k <= |t|
  {
    k < |t| && !IsLineTerminator(t[k]) && EndsLine(t, LineEnd(t, k))
  }

  /** `(.+?)(?:\n|$)` matches from some start in `[k, k0)`. */
  predicate LineMatchesBefore(t: string, k: nat, k0: nat)
    requires k <= k0 <= |t|
    decreases k0 - k
  {
    k < k0 && (LineMatchesAt(t, k) || LineMatchesBefore(t, k + 1, k0))
  }

  predicate IsDigitOrComma(c: char) { IsDigit(c) || c == ',' }

  predicate IsPhoneChar(c: char) { IsDigit(c) || c == '+' || c == '-' || IsSpace(c) }

  function DigitCommaEnd(t: string, k: nat): (e: nat)
    requires k <= |t|
    ensures k <= e <= |t|
    ensures forall m :: k <= m < e ==> IsDigitOrComma(t[m])
    ensures e == |t| || !IsDigitOrComma(t[e])
    decreases |t| - k
  {
    if k == |t| || !IsDigitOrComma(t[k]) then k else DigitCommaEnd(t, k + 1)
  }

  function PhoneEnd(t: string, k: nat): (e: nat)
    requires k <= |t|
    ensures k <= e <= |t|
    ensures forall m :: k <= m < e ==> IsPhoneChar(t[m])
    ensures e == |t| || !IsPhoneChar(t[e])
    decreases |t| - k
  {
    if k == |t| || !IsPhoneChar(t[k]) then k else PhoneEnd(t, k + 1)
  }

  /** The largest `e` in `(0, r]` at which `(?:\n|$)` holds, or 0 when there is none. */
  function LastLineBreak(t: string, r: nat): (e: nat)
    requires r <= |t|
    ensures e <= r
    ensures e > 0 ==> EndsLine(t, e)
    ensures forall m :: e < m <= r ==> !EndsLine(t, m)
    decreases r
  {
    if r == 0 then 0 else if EndsLine(t, r) then r else LastLineBreak(t, r - 1)
  }

  predicate BlankLineAt(t: string, e: nat) {
    e + 1 < |t| && t[e] == '\n' && t[e + 1] == '\n'
  }

  /** The first `e` at or after `k` where `\n\n` starts, or the end. */
  function BlockEnd(t: string, k: nat): (e: nat)
    requires k <= |t|
    ensures k <= e <= |t|
    ensures e == |t| || BlankLineAt(t, e)
    ensures forall m :: k <= m < e ==> !BlankLineAt(t, m)
    decreases |t| - k
  {
    if k == |t| || BlankLineAt(t, k) then k else BlockEnd(t, k + 1)
  }

  /**
   * Where `<prefix><optional>?` ends when matched at `k`, or `None` when the
   * prefix is not there; under the `i` flag both are compared in
   * `RegExpCanon` form.
   */
  function MarkerEnd(t: string, k: nat, prefix: string, optional: Option<char>): (m: Option<nat>)
    requires k <= |t|
    ensures m.Some? <==> PrefixFolded(t[k..], prefix)
    ensures m.Some? ==> k + |prefix| <= m.value <= |t|
    ensures m.Some? && m.value > k + |prefix| ==>
      optional.Some? && RegExpCanon(t[k + |prefix|]) == RegExpCanon(optional.value)
  {
    if PrefixFolded(t[k..], prefix) then
      var m := k + |prefix|;
      Some(if optional.Some? && m < |t| && RegExpCanon(t[m]) == RegExpCanon(optional.value) then m + 1 else m)
    else None
  }

  /**
   * The trimmed capture of the pattern that follows the label, matched at
   * the start of `t` (the text just after the label), or `None`.
   *
   * Line: greedy `\s*` first tries its longest run; if the rest of the line
   * fails, backtracking only leaves white space in the capture, which trims
   * to the empty string.
   * Digits: white space cannot start the prefix or the digits, so both `\s*`
   * take their longest run, and `[0-9,]+` must reach a newline or the end.
   * Phone: the character class contains `\s`, so the capture is everything
   * up to the last newline (or end) the run reaches.
   * Block: the lazy `[\s\S]+?` stops at the first blank line or the end.
   */
  function MatchAfterLabel(t: string, shape: Shape): (r: Option<string>)
    ensures r.Some? ==> Trim(r.value) == r.value
    ensures r.Some? && shape.Digits? ==>
      r.value != [] && forall i :: 0 <= i < |r.value| ==> IsDigitOrComma(r.value[i])
  {
    var k0 := SkipSpace(t, 0);
    match shape
    case Line =>
      if LineMatchesAt(t, k0) then
        TrimIdempotent(t[k0..LineEnd(t, k0)]);
        Some(Trim(t[k0..LineEnd(t, k0)]))
      else if LineMatchesBefore(t, 0, k0) then Some("")
      else None
    case Digits(prefix, optional) =>
      var marker := MarkerEnd(t, k0, prefix, optional);
      if marker.Some? then
        var k1 := SkipSpace(t, marker.value);
        var e := DigitCommaEnd(t, k1);
        if k1 < e && EndsLine(t, e) then
          assert forall i :: 0 <= i < e - k1 ==> t[k1..e][i] == t[k1 + i];
          TrimUnchanged(t[k1..e]);
          Some(t[k1..e])
        else None
      else None
    case Phone =>
      var e := LastLineBreak(t, PhoneEnd(t, 0));
      if e > 0 then
        TrimIdempotent(t[..e]);
        Some(Trim(t[..e]))
      else None
    case Block =>
      if k0 < |t| then
        TrimIdempotent(t[k0..BlockEnd(t, k0 + 1)]);
        Some(Trim(t[k0..BlockEnd(t, k0 + 1)]))
      else if k0 > 0 then Some("")
      else None
  }

  /**
   * `s.match(new RegExp(label + pattern, 'i'))[1].trim()`: the capture at
   * the first occurrence of `key` (compared without case) at which the
   * rest of the pattern matches; `None` when the pattern matches nowhere.
   */
  function Extract(s: string, key: string, shape: Shape): (r: Option<string>)
    ensures r.Some? ==> Trim(r.value) == r.value
    ensures r.Some? && shape.Digits? ==>
      r.value != [] && forall i :: 0 <= i < |r.value| ==> IsDigitOrComma(r.value[i])
    decreases |s|
  {
    if |s| < |key| then None
    else if PrefixCI(s, key) && MatchAfterLabel(s[|key|..], shape).Some? then
      MatchAfterLabel(s[|key|..], shape)
    else if s == [] then None
    else Extract(s[1..], key, shape)
  }

  /** The capture for field `f`. */
  function FieldMatch(s: string, cur: Currency, f: Field): Option<string> {
    Extract(s, Label(f), PatternOf(f, cur))
  }

  // ---------------------------------------------------------------- results

  /** A price or hours figure: the parsed number, or the captured text when it did not parse. */
  datatype Quantity = Num(n: nat) | Raw(text: string)

  datatype ListingData = ListingData(
    brand: string,
    model: string,
    price: Quantity,
    hoursRun: Quantity,
    locationText: string,
    description: string,
    contact: string)

  /** The entries of the `errors` list; `ErrorText` gives the string the source pushes. */
  datatype ParseError =
    | MissingField(field: Field)
    | InvalidPrice
    | InvalidHours
    | NotAListing
    | ParsingError(reason: string)

  function ErrorText(e: ParseError): string {
    match e
    case MissingField(f) => "Missing required field: " + FieldName(f)
    case InvalidPrice => "Invalid price format"
    case InvalidHours => "Invalid hours format"
    case NotAListing => "Message does not appear to be a generator listing"
    case ParsingError(reason) => "Parsing error: " + reason
  }

  /** `{success, data, errors}`; `data` is `None` for the `{}` of the exception path. */
  datatype ParseResult = ParseResult(success: bool, data: Option<ListingData>, errors: seq<ParseError>)

  /**
   * The message of the TypeError raised when the message body is neither
   * nullish nor a string; the model uses it for every body that is not a
   * string (a nullish one gives "Cannot read properties of undefined"
   * or "of null").
   */
  const NotAString := "messageText.match is not a function"

  /** The `data` dictionary after the extraction loop over `fs`. */
  function Captured(s: string, cur: Currency, fs: seq<Field>): map<Field, string>
    decreases |fs|
  {
    if fs == [] then map[]
    else
      var m := Captured(s, cur, fs[..|fs| - 1]);
      var f := fs[|fs| - 1];
      var x := FieldMatch(s, cur, f);
      if x.Some? then m[f := x.value] else m
  }

  /** JavaScript truthiness of `data[f]` when it is still a string. */
  predicate Present(data: map<Field, string>, f: Field) {
    f in data && data[f] != ""
  }

  function ValueOr(data: map<Field, string>, f: Field, default: string): string {
    if Present(data, f) then data[f] else default
  }

  /** The errors of the required-field loop over `fs`. */
  function MissingErrors(data: map<Field, string>, fs: seq<Field>): seq<ParseError>
    decreases |fs|
  {
    if fs == [] then []
    else
      MissingErrors(data, fs[..|fs| - 1])
      + (if Present(data, fs[|fs| - 1]) then [] else [MissingField(fs[|fs| - 1])])
  }

  /** The characters `replace(/[<currency>,\s]/g, '')` removes. */
  predicate Stripped(c: char, cur: Option<Currency>) {
    c == ',' || IsSpace(c) || (cur.Some? && (c in cur.value.prefix || c == cur.value.optional))
  }

  function Strip(s: string, cur: Option<Currency>): (r: string)
    ensures forall i :: 0 <= i < |r| ==> !Stripped(r[i], cur)
    decreases |s|
  {
    if s == [] then []
    else (if Stripped(s[0], cur) then [] else [s[0]]) + Strip(s[1..], cur)
  }

  /** The price after lines 53-61: `None` when absent, with the errors added. */
  function CheckedPrice(data: map<Field, string>, cur: Currency): (Option<Quantity>, seq<ParseError>) {
    if !Present(data, Price) then (None, [])
    else
      var n := ParseInt(Strip(data[Price], Some(cur)));
      if n.Some? && n.value > 0 then (Some(Num(n.value)), [])
      else (Some(Raw(data[Price])), [InvalidPrice])
  }

  /** The hours after lines 64-72. */
  function CheckedHours(data: map<Field, string>): (Option<Quantity>, seq<ParseError>) {
    if !Present(data, Hours) then (None, [])
    else
      var n := ParseInt(Strip(data[Hours], None));
      if n.Some? && n.value >= 0 then (Some(Num(n.value)), [])
      else (Some(Raw(data[Hours])), [InvalidHours])
  }

  /** `data.x || 0` for a checked figure: a parsed 0 and an absent figure both give 0. */
  function QuantityOrZero(q: Option<Quantity>): Quantity {
    if q.Some? then q.value else Num(0)
  }

  /** One alternative of `/generator|genset|dg\s*set|diesel\s*generator/i` matches at the start of `s`. */
  predicate KeywordHere(s: string) {
    PrefixCI(s, "generator") || PrefixCI(s, "genset")
    || (PrefixCI(s, "dg") && PrefixCI(s[SkipSpace(s, 2)..], "set"))
    || (PrefixCI(s, "diesel") && PrefixCI(s[SkipSpace(s, 6)..], "generator"))
  }

  /** The keyword expression matches somewhere in `s`. */
  predicate HasKeyword(s: string)
    decreases |s|
  {
    s != [] && (KeywordHere(s) || HasKeyword(s[1..]))
  }

  /** `data.type?.toLowerCase().includes('generator')`. */
  predicate TypeMentionsGenerator(data: map<Field, string>) {
    Type in data && Contains(Lower(data[Type]), "generator")
  }

  function KeywordErrors(s: string, data: map<Field, string>): seq<ParseError> {
    if !HasKeyword(s) && !TypeMentionsGenerator(data) then [NotAListing] else []
  }

  /**
   * What `parseGeneratorListing` returns. `text` is `None` when the message
   * body is not a string, where `match` throws and the catch clause answers.
   * `keywordCheck` is true for the service and false for the test copy.
   */
  function ParseSpec(text: Option<string>, cur: Currency, keywordCheck: bool): (r: ParseResult)
    ensures r.success <==> r.errors == []
    ensures text.None? <==> r.data.None?
    ensures text.None? ==> r.errors == [ParsingError(NotAString)]
  {
    if text.None? then ParseResult(false, None, [ParsingError(NotAString)])
    else Outcome(text.value, Captured(text.value, cur, Fields), cur, keywordCheck)
  }

  /** The errors the checks after extraction report, in order. */
  function Errors(s: string, data: map<Field, string>, cur: Currency, keywordCheck: bool): seq<ParseError> {
    MissingErrors(data, RequiredFields) + FormatErrors(s, data, cur, keywordCheck)
  }

  /** The errors of the price, hours and keyword checks. */
  function FormatErrors(s: string, data: map<Field, string>, cur: Currency, keywordCheck: bool): seq<ParseError> {
    CheckedPrice(data, cur).1 + CheckedHours(data).1 + (if keywordCheck then KeywordErrors(s, data) else [])
  }

  /** The result built from the extracted `data` of the text `s`. */
  function Outcome(s: string, data: map<Field, string>, cur: Currency, keywordCheck: bool): ParseResult {
    var errors := Errors(s, data, cur, keywordCheck);
    ParseResult(errors == [], Some(ListingData(
      ValueOr(data, Brand, ""),
      ValueOr(data, Model, ""),
      QuantityOrZero(CheckedPrice(data, cur).0),
      QuantityOrZero(CheckedHours(data).0),
      ValueOr(data, Location, ""),
      ValueOr(data, Description, s),
      ValueOr(data, Contact, ""))), errors)
  }

  /** The service's parser, with the currency marker as intended (see the findings). */
  function ServiceParse(text: Option<string>): ParseResult { ParseSpec(text, Rupee, true) }

  /** The service's parser exactly as written, with the mis-encoded marker. */
  function ServiceParseAsWritten(text: Option<string>): ParseResult { ParseSpec(text, MisEncodedRupee, true) }

  /** The copy in the parser test: rupee sign, no keyword check. */
  function TestCopyParse(text: Option<string>): ParseResult { ParseSpec(text, Rupee, false) }

  // ---------------------------------------------------------------- the method

  /** The extraction loop of lines 37-42. */
  method ExtractFields(s: string, cur: Currency) returns (data: map<Field, string>)
    ensures data == Captured(s, cur, Fields)
  {
    data := map[];
    var i := 0;
    while i < |Fields|
      invariant 0 <= i <= |Fields|
      invariant data == Captured(s, cur, Fields[..i])
    {
      var f := Fields[i];
      var x := Extract(s, Label(f), PatternOf(f, cur));
      if x.Some? {
        data := data[f := x.value];
      }
      assert Fields[..i + 1][..i] == Fields[..i];
      i := i + 1;
    }
    assert Fields[..i] == Fields;
  }

  /** The required-field loop of lines 45-50. */
  method CheckRequired(data: map<Field, string>) returns (errors: seq<ParseError>)
    ensures errors == MissingErrors(data, RequiredFields)
  {
    errors := [];
    var i := 0;
    while i < |RequiredFields|
      invariant 0 <= i <= |RequiredFields|
      invariant errors == MissingErrors(data, RequiredFields[..i])
    {
      var f := RequiredFields[i];
      if !(f in data && data[f] != "") {
        errors := errors + [MissingField(f)];
      }
      assert RequiredFields[..i + 1][..i] == RequiredFields[..i];
      i := i + 1;
    }
    assert RequiredFields[..i] == RequiredFields;
  }

  /** The price normalisation of lines 53-61. */
  method CheckPrice(data: map<Field, string>, cur: Currency) returns (price: Option<Quantity>, errors: seq<ParseError>)
    ensures (price, errors) == CheckedPrice(data, cur)
  {
    price, errors := None, [];
    if Price in data && data[Price] != "" {
      var n := ParseInt(Strip(data[Price], Some(cur)));
      if n.None? || n.value <= 0 {
        errors := [InvalidPrice];
        price := Some(Raw(data[Price]));
      } else {
        price := Some(Num(n.value));
      }
    }
  }

  /** The hours normalisation of lines 64-72. */
  method CheckHours(data: map<Field, string>) returns (hours: Option<Quantity>, errors: seq<ParseError>)
    ensures (hours, errors) == CheckedHours(data)
  {
    hours, errors := None, [];
    if Hours in data && data[Hours] != "" {
      var n := ParseInt(Strip(data[Hours], None));
      if n.None? || n.value < 0 {
        errors := [InvalidHours];
        hours := Some(Raw(data[Hours]));
      } else {
        hours := Some(Num(n.value));
      }
    }
  }

  /** `parseGeneratorListing`: extraction, required fields, price, hours, keyword check. */
  method ParseGeneratorListing(text: Option<string>, cur: Currency, keywordCheck: bool)
    returns (r: ParseResult)
    ensures r == ParseSpec(text, cur, keywordCheck)
  {
    if text.None? {
      return ParseResult(false, None, [ParsingError(NotAString)]);
    }
    var s := text.value;
    var data := ExtractFields(s, cur);
    var missing := CheckRequired(data);
    var price, priceErrors := CheckPrice(data, cur);
    var hours, hoursErrors := CheckHours(data);
    var keywordErrors := [];
    if keywordCheck && !HasKeyword(s) && !TypeMentionsGenerator(data) {
      keywordErrors := [NotAListing];
    }
    var errors := missing + (priceErrors + hoursErrors + keywordErrors);
    r := ParseResult(errors == [], Some(ListingData(
      ValueOr(data, Brand, ""), ValueOr(data, Model, ""),
      QuantityOrZero(price), QuantityOrZero(hours),
      ValueOr(data, Location, ""), ValueOr(data, Description, s),
      ValueOr(data, Contact, ""))), errors);
  }

  // ---------------------------------------------------------------- lemmas

  /** The extraction loop records exactly the fields whose pattern matched, with their captures. */
  lemma {:induction false} CapturedField(s: string, cur: Currency, fs: seq<Field>, f: Field)
    ensures f in Captured(s, cur, fs) <==> f in fs && FieldMatch(s, cur, f).Some?
    ensures f in Captured(s, cur, fs) ==> Captured(s, cur, fs)[f] == FieldMatch(s, cur, f).value
    decreases |fs|
  {
    if fs != [] {
      CapturedField(s, cur, fs[..|fs| - 1], f);
      assert fs == fs[..|fs| - 1] + [fs[|fs| - 1]];
    }
  }

  /** Each field of `fs` that is absent or empty contributes exactly one error, and no other field does. */
  lemma {:induction false} MissingErrorsCount(data: map<Field, string>, fs: seq<Field>, f: Field)
    requires forall i, j :: 0 <= i < j < |fs| ==> fs[i] != fs[j]
    ensures multiset(MissingErrors(data, fs))[MissingField(f)] ==
      if f in fs && !Present(data, f) then 1 else 0
    decreases |fs|
  {
    if fs != [] {
      var init := fs[..|fs| - 1];
      var last := fs[|fs| - 1];
      MissingErrorsCount(data, init, f);
      assert fs == init + [last];
      assert f in fs <==> f in init || f == last;
      assert f == last ==> f !in init;
    }
  }

  /** The required-field loop reports nothing but missing fields. */
  lemma {:induction false} MissingErrorsShape(data: map<Field, string>, fs: seq<Field>)
    ensures forall e :: e in MissingErrors(data, fs) ==> e.MissingField?
    decreases |fs|
  {
    if fs != [] { MissingErrorsShape(data, fs[..|fs| - 1]); }
  }

  /** The price, hours and keyword checks report no missing field, and each of their errors at most once. */
  lemma FormatErrorsMembers(s: string, data: map<Field, string>, cur: Currency, keywordCheck: bool)
    ensures forall e :: e in FormatErrors(s, data, cur, keywordCheck) ==> !e.MissingField?
    ensures InvalidPrice in FormatErrors(s, data, cur, keywordCheck) <==> CheckedPrice(data, cur).1 != []
    ensures InvalidHours in FormatErrors(s, data, cur, keywordCheck) <==> CheckedHours(data).1 != []
    ensures NotAListing in FormatErrors(s, data, cur, keywordCheck) <==> keywordCheck && KeywordErrors(s, data) != []
  {
  }

  /** Errors that are not missing-field errors come from the later checks only. */
  lemma ErrorsOutsideMissing(s: string, data: map<Field, string>, cur: Currency, keywordCheck: bool, e: ParseError)
    requires !e.MissingField?
    ensures e in Errors(s, data, cur, keywordCheck) <==> e in FormatErrors(s, data, cur, keywordCheck)
  {
    MissingErrorsShape(data, RequiredFields);
  }

  /** Appending errors that do not include `e` leaves the count of `e` unchanged. */
  lemma CountAfterAppend(a: seq<ParseError>, b: seq<ParseError>, e: ParseError)
    requires e !in b
    ensures multiset(a + b)[e] == multiset(a)[e]
  {
  }

  /** The checks after extraction report each absent required field exactly once. */
  lemma MissingFieldCounted(s: string, data: map<Field, string>, cur: Currency, keywordCheck: bool, f: Field)
    ensures multiset(Errors(s, data, cur, keywordCheck))[MissingField(f)] ==
      if f in RequiredFields && !Present(data, f) then 1 else 0
  {
    MissingErrorsCount(data, RequiredFields, f);
    FormatErrorsMembers(s, data, cur, keywordCheck);
    CountAfterAppend(MissingErrors(data, RequiredFields), FormatErrors(s, data, cur, keywordCheck), MissingField(f));
  }

  /**
   * For each required field, "Missing required field: <name>" appears in the
   * errors exactly once when the field is absent or empty after trim, and
   * not at all otherwise.
   */
  lemma MissingFieldReported(text: string, cur: Currency, keywordCheck: bool, f: Field)
    requires f in RequiredFields
    ensures var r := ParseSpec(Some(text), cur, keywordCheck);
      multiset(r.errors)[MissingField(f)] ==
        if FieldMatch(text, cur, f).Some? && FieldMatch(text, cur, f).value != "" then 0 else 1
  {
    var data := Captured(text, cur, Fields);
    CapturedField(text, cur, Fields, f);
    MissingFieldCounted(text, data, cur, keywordCheck, f);
  }

  /** Removing commas and white space from digits and commas leaves only digits. */
  lemma {:induction false} StripDigitsAndCommas(s: string, cur: Option<Currency>)
    requires forall i :: 0 <= i < |s| ==> IsDigitOrComma(s[i])
    requires cur.Some? ==> (forall c :: c in cur.value.prefix ==> !IsDigit(c)) && !IsDigit(cur.value.optional)
    ensures AllDigits(Strip(s, cur))
    ensures |Strip(s, cur)| <= |s|
    decreases |s|
  {
    if s != [] { StripDigitsAndCommas(s[1..], cur); }
  }

  /** `parseInt` of the cleaned figure: `NaN` when no digit is left, else the digits' value. */
  lemma ParseCleaned(d: string)
    requires AllDigits(d)
    ensures ParseInt(d) == if d == [] then None else Some(DecimalValue(d))
  {
    if d != [] { ParseIntDigits(d); }
  }

  predicate CurrencyHasNoDigit(cur: Currency) {
    (forall c :: c in cur.prefix ==> !IsDigit(c)) && !IsDigit(cur.optional)
  }

  /** A present price of digits and commas: its cleaned digits decide between the number and the error. */
  lemma PriceChecked(data: map<Field, string>, cur: Currency)
    requires CurrencyHasNoDigit(cur) && Present(data, Price)
    requires forall i :: 0 <= i < |data[Price]| ==> IsDigitOrComma(data[Price][i])
    ensures var d := Strip(data[Price], Some(cur));
      AllDigits(d)
      && CheckedPrice(data, cur) ==
        if d != [] && DecimalValue(d) > 0 then (Some(Num(DecimalValue(d))), [])
        else (Some(Raw(data[Price])), [InvalidPrice])
  {
    var d := Strip(data[Price], Some(cur));
    StripDigitsAndCommas(data[Price], Some(cur));
    ParseCleaned(d);
  }

  /**
   * A captured price is a run of digits and commas. With commas removed it
   * becomes the price when its value is positive; otherwise "Invalid price
   * format" is reported and the captured text is kept.
   */
  lemma PriceNormalised(text: string, cur: Currency, keywordCheck: bool)
    requires CurrencyHasNoDigit(cur)
    requires FieldMatch(text, cur, Price).Some?
    ensures var c := FieldMatch(text, cur, Price).value;
      var d := Strip(c, Some(cur));
      var r := ParseSpec(Some(text), cur, keywordCheck);
      AllDigits(d)
      && r.data.value.price == (if d != [] && DecimalValue(d) > 0 then Num(DecimalValue(d)) else Raw(c))
      && (InvalidPrice in r.errors <==> d == [] || DecimalValue(d) == 0)
  {
    var data := Captured(text, cur, Fields);
    CapturedField(text, cur, Fields, Price);
    PriceChecked(data, cur);
    ErrorsOutsideMissing(text, data, cur, keywordCheck, InvalidPrice);
    FormatErrorsMembers(text, data, cur, keywordCheck);
  }

  /** A present hours figure of digits and commas: the cleaned digits, or the error when none remain. */
  lemma HoursChecked(data: map<Field, string>)
    requires Present(data, Hours)
    requires forall i :: 0 <= i < |data[Hours]| ==> IsDigitOrComma(data[Hours][i])
    ensures var d := Strip(data[Hours], None);
      AllDigits(d)
      && CheckedHours(data) ==
        if d != [] then (Some(Num(DecimalValue(d))), [])
        else (Some(Raw(data[Hours])), [InvalidHours])
  {
    var d := Strip(data[Hours], None);
    StripDigitsAndCommas(data[Hours], None);
    ParseCleaned(d);
  }

  /**
   * A captured hours figure with commas removed becomes the hours run when
   * digits remain; a capture of commas only reports "Invalid hours format".
   */
  lemma HoursNormalised(text: string, cur: Currency, keywordCheck: bool)
    requires FieldMatch(text, cur, Hours).Some?
    ensures var c := FieldMatch(text, cur, Hours).value;
      var d := Strip(c, None);
      var r := ParseSpec(Some(text), cur, keywordCheck);
      AllDigits(d)
      && r.data.value.hoursRun == (if d != [] then Num(DecimalValue(d)) else Raw(c))
      && (InvalidHours in r.errors <==> d == [])
  {
    var data := Captured(text, cur, Fields);
    CapturedField(text, cur, Fields, Hours);
    HoursChecked(data);
    ErrorsOutsideMissing(text, data, cur, keywordCheck, InvalidHours);
    FormatErrorsMembers(text, data, cur, keywordCheck);
  }

  /**
   * With the keyword check on, "Message does not appear to be a generator
   * listing" is reported exactly when neither the text nor the captured type
   * mentions a generator, and it is then the last error.
   */
  lemma KeywordCheck(text: string, cur: Currency)
    ensures var r := ParseSpec(Some(text), cur, true);
      var data := Captured(text, cur, Fields);
      (NotAListing in r.errors <==> !HasKeyword(text) && !TypeMentionsGenerator(data))
      && (NotAListing in r.errors ==> r.errors[|r.errors| - 1] == NotAListing)
  {
    var data := Captured(text, cur, Fields);
    ErrorsOutsideMissing(text, data, cur, true, NotAListing);
    FormatErrorsMembers(text, data, cur, true);
  }

  /**
   * The parse succeeds exactly when every required field is present, the
   * price is positive, the hours parse, and (for the service) the keyword
   * check passes.
   */
  lemma SuccessCharacterised(text: string, cur: Currency, keywordCheck: bool)
    ensures var data := Captured(text, cur, Fields);
      ParseSpec(Some(text), cur, keywordCheck).success <==>
        (forall f :: f in RequiredFields ==> Present(data, f))
        && CheckedPrice(data, cur).1 == []
        && CheckedHours(data).1 == []
        && (keywordCheck ==> HasKeyword(text) || TypeMentionsGenerator(data))
  {
    var data := Captured(text, cur, Fields);
    MissingNone(data, RequiredFields);
  }

  lemma {:induction false} MissingNone(data: map<Field, string>, fs: seq<Field>)
    ensures MissingErrors(data, fs) == [] <==> forall f :: f in fs ==> Present(data, f)
    decreases |fs|
  {
    if fs != [] {
      MissingNone(data, fs[..|fs| - 1]);
      assert fs == fs[..|fs| - 1] + [fs[|fs| - 1]];
    }
  }

  /**
   * The test copy applies the same rules as the service without the keyword
   * check: the same data, and the service's errors are the copy's errors
   * followed by the keyword error, if any.
   */
  lemma TestCopyIsServiceWithoutKeywordCheck(text: string)
    ensures var service := ServiceParse(Some(text));
      var copy := TestCopyParse(Some(text));
      service.data == copy.data
      && service.errors == copy.errors + KeywordErrors(text, Captured(text, Rupee, Fields))
      && (service.success ==> copy.success)
  {
  }

  // ---------------------------------------------------------------- the mis-encoded marker

  /**
   * The price pattern as written needs the text to contain 'â' (U+00E2) or,
   * since the pattern ignores case, 'Â' (U+00C2) after the label.
   */
  lemma {:induction false} MisEncodedPriceNeedsMarker(s: string)
    requires forall i :: 0 <= i < |s| ==> s[i] != '\U{00E2}' && s[i] != '\U{00C2}'
    ensures FieldMatch(s, MisEncodedRupee, Price).None?
    decreases |s|
  {
    var key := Label(Price);
    var shape := PatternOf(Price, MisEncodedRupee);
    if |s| >= |key| {
      var t := s[|key|..];
      var k0 := SkipSpace(t, 0);
      if k0 + 2 <= |t| {
        assert t[k0..][0] == s[|key| + k0];
        CircumflexClass(t[k0..][0]);
      }
      assert !PrefixFolded(t[k0..], MisEncodedRupee.prefix);
      assert MatchAfterLabel(t, shape).None?;
      if s != [] { MisEncodedPriceNeedsMarker(s[1..]); }
    }
  }

  /**
   * As written, the service rejects every message without 'â' or 'Â': the
   * price is never captured, so "Missing required field: price" is reported.
   */
  lemma AsWrittenRejectsOrdinaryText(text: string)
    requires forall i :: 0 <= i < |text| ==> text[i] != '\U{00E2}' && text[i] != '\U{00C2}'
    ensures !ServiceParseAsWritten(Some(text)).success
    ensures MissingField(Price) in ServiceParseAsWritten(Some(text)).errors
  {
    MisEncodedPriceNeedsMarker(text);
    MissingFieldReported(text, MisEncodedRupee, true, Price);
  }

  /** The pattern as written does capture a figure written after "Â‚", its upper-case form. */
  lemma AsWrittenAcceptsFoldedMarker()
    ensures FieldMatch("Price: \U{00C2}\U{201A}850000", MisEncodedRupee, Price) == Some("850000")
  {
    var s := "Price: \U{00C2}\U{201A}850000";
    var t := " \U{00C2}\U{201A}850000";
    assert s[6..] == t;
    assert Lower(s[..6]) == "price:";
    assert SkipSpace(t, 0) == 1 by { assert SkipSpace(t, 1) == 1; }
    assert t[1..][0] == '\U{00C2}' && t[1..][1] == '\U{201A}';
    assert MarkerEnd(t, 1, MisEncodedRupee.prefix, Some(MisEncodedRupee.optional)) == Some(3);
    assert SkipSpace(t, 3) == 3;
    assert DigitCommaEnd(t, 3) == |t| by {
      assert DigitCommaEnd(t, 9) == 9;
      assert DigitCommaEnd(t, 8) == 9;
      assert DigitCommaEnd(t, 7) == 9;
      assert DigitCommaEnd(t, 6) == 9;
      assert DigitCommaEnd(t, 5) == 9;
      assert DigitCommaEnd(t, 4) == 9;
    }
    assert t[3..|t|] == "850000";
    assert MatchAfterLabel(t, PatternOf(Price, MisEncodedRupee)) == Some("850000");
  }
}
