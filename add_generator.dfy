/**
 * The administrator's "add generator" form: the text fields, the list of
 * image url fields whose non-blank entries are the listing's images, and
 * the submission, which checks the fields in order before it sends a
 * trimmed body to the manual endpoint.
 */
module AddGenerator {
  import opened Wrappers
  import opened JsText
  import opened Json
  import opened UserModel
  import opened GeneratorModel
  import opened ManualRequest

  /** The form's state object; every field is the text typed into it. */
  datatype FormData = FormData(
    brand: string,
    model: string,
    price: string,
    hoursRun: string,
    locationText: string,
    description: string,
    sellerWhatsappId: string,
    sellerDisplayName: string,
    images: seq<string>)

  /** The names of the text inputs. */
  datatype FieldName =
    Brand | Model | Price | HoursRun | LocationText | Description | SellerWhatsappId | SellerDisplayName

  const EmptyForm := FormData("", "", "", "", "", "", "", "", [])

  const MissingFieldsError := "Please fill in all required fields"
  const PriceError := "Please enter a valid price"
  const HoursError := "Please enter valid running hours"
  const IdError := "Please enter a valid WhatsApp ID (10-15 digits)"
  const AddedMessage := "Generator added successfully!"

  // ---------------------------------------------------------------- the fields

  function FieldOf(d: FormData, name: FieldName): string {
    match name
    case Brand => d.brand
    case Model => d.model
    case Price => d.price
    case HoursRun => d.hoursRun
    case LocationText => d.locationText
    case Description => d.description
    case SellerWhatsappId => d.sellerWhatsappId
    case SellerDisplayName => d.sellerDisplayName
  }

  /** `{ ...prev, [name]: value }`. */
  function WithField(d: FormData, name: FieldName, value: string): (r: FormData)
    ensures r.images == d.images
  {
    match name
    case Brand => d.(brand := value)
    case Model => d.(model := value)
    case Price => d.(price := value)
    case HoursRun => d.(hoursRun := value)
    case LocationText => d.(locationText := value)
    case Description => d.(description := value)
    case SellerWhatsappId => d.(sellerWhatsappId := value)
    case SellerDisplayName => d.(sellerDisplayName := value)
  }

  /** Typing into one input changes that field alone. */
  lemma WithFieldOnlyThat(d: FormData, name: FieldName, value: string, other: FieldName)
    ensures FieldOf(WithField(d, name, value), other) == if other == name then value else FieldOf(d, other)
  {
  }

  // ---------------------------------------------------------------- the image url fields

  /** `urls.filter(url => url.trim() !== '')`. */
  function NonBlank(urls: seq<string>): (r: seq<string>)
    ensures |r| <= |urls|
  {
    if urls == [] then []
    else (if Trim(urls[0]) != "" then [urls[0]] else []) + NonBlank(urls[1..])
  }

  /** The kept urls are the non-blank entries, in order, and nothing else. */
  lemma {:induction false} NonBlankCharacterised(urls: seq<string>)
    ensures forall u :: u in NonBlank(urls) <==> u in urls && Trim(u) != ""
  {
    if urls != [] {
      NonBlankCharacterised(urls[1..]);
      assert urls == [urls[0]] + urls[1..];
    }
  }

  lemma {:induction false} NonBlankAppend(a: seq<string>, b: seq<string>)
    ensures NonBlank(a + b) == NonBlank(a) + NonBlank(b)
  {
    if a == [] {
      assert a + b == b;
    } else {
      assert (a + b)[0] == a[0] && (a + b)[1..] == a[1..] + b;
      NonBlankAppend(a[1..], b);
    }
  }

  /** `imageUrls.filter((_, i) => i !== index)`: the entry at `index` removed, when there is one. */
  function RemoveAt(urls: seq<string>, index: int): (r: seq<string>)
    ensures 0 <= index < |urls| ==>
      (|r| == |urls| - 1
       && (forall j :: 0 <= j < index ==> r[j] == urls[j])
       && (forall j :: index <= j < |r| ==> r[j] == urls[j + 1]))
    ensures !(0 <= index < |urls|) ==> r == urls
  {
    if 0 <= index < |urls| then urls[..index] + urls[index + 1..] else urls
  }

  /**
   * Removing a url field removes its entry from the images when it was not
   * blank, and leaves the images alone otherwise.
   */
  lemma RemoveAtImages(urls: seq<string>, index: int)
    requires 0 <= index < |urls|
    ensures var before := urls[..index]; var after := urls[index + 1..];
      NonBlank(RemoveAt(urls, index)) == NonBlank(before) + NonBlank(after)
      && NonBlank(urls) == NonBlank(before) + ((if Trim(urls[index]) != "" then [urls[index]] else []) + NonBlank(after))
  {
    var before := urls[..index];
    var after := urls[index + 1..];
    assert RemoveAt(urls, index) == before + after;
    NonBlankAppend(before, after);
    assert urls == before + ([urls[index]] + after);
    NonBlankAppend(before, [urls[index]] + after);
    NonBlankCons(urls[index], after);
  }

  lemma NonBlankCons(x: string, rest: seq<string>)
    ensures NonBlank([x] + rest) == (if Trim(x) != "" then [x] else []) + NonBlank(rest)
  {
    assert ([x] + rest)[0] == x && ([x] + rest)[1..] == rest;
  }

  // ---------------------------------------------------------------- the submission

  /**
   * The checks `handleSubmit` makes before sending, in order: every field
   * but the display name typed in, a price `parseInt` reads as positive,
   * hours it reads as non-negative, a seller id of 10 to 15 digits. The
   * result is the two numbers read, or the message shown.
   */
  function CheckForm(d: FormData): Result<(int, int), string> {
    if d.brand == "" || d.model == "" || d.price == "" || d.hoursRun == "" || d.locationText == ""
      || d.description == "" || d.sellerWhatsappId == ""
    then Err(MissingFieldsError)
    else
      var price := ParseInt(d.price);
      var hours := ParseInt(d.hoursRun);
      if price.None? || price.value <= 0 then Err(PriceError)
      else if hours.None? || hours.value < 0 then Err(HoursError)
      else if !IsWhatsAppId(d.sellerWhatsappId) then Err(IdError)
      else Ok((price.value, hours.value))
  }

  /**
   * A form passes exactly when its required fields are typed in, its price
   * reads as a positive number, its hours as a non-negative one, and its
   * seller id has 10 to 15 digits; the numbers passed on are those read.
   */
  lemma CheckFormCharacterised(d: FormData)
    ensures CheckForm(d).Ok? <==>
      d.brand != "" && d.model != "" && d.locationText != "" && d.description != ""
      && ParseInt(d.price).Some? && ParseInt(d.price).value > 0
      && ParseInt(d.hoursRun).Some? && ParseInt(d.hoursRun).value >= 0
      && IsWhatsAppId(d.sellerWhatsappId)
    ensures CheckForm(d).Ok? ==> CheckForm(d).value == (ParseInt(d.price).value, ParseInt(d.hoursRun).value)
  {
    if d.price == "" { ParseIntNoDigit(d.price); }
    if d.hoursRun == "" { ParseIntNoDigit(d.hoursRun); }
  }

  /**
   * An empty field is reported before any number is read, and a bad price
   * before bad hours; "12abc" passes as a price of 12 because `parseInt`
   * stops at the first non-digit.
   */
  lemma CheckFormOrder(d: FormData)
    ensures d.brand == "" ==> CheckForm(d) == Err(MissingFieldsError)
    ensures d.brand != "" && d.model != "" && d.locationText != "" && d.description != ""
      && d.hoursRun != "" && d.sellerWhatsappId != "" && d.price == "abc"
      ==> CheckForm(d) == Err(PriceError)
  {
    if d.price == "abc" {
      ParseIntNoDigit("abc");
    }
  }

  lemma PriceReadsLeadingDigits()
    ensures ParseInt("12abc") == Some(12)
  {
    ParseIntLeadingDigits("12", "abc");
    assert "12" + "abc" == "12abc";
    assert DecimalValue("12") == 12 by {
      assert DecimalValue("1") == 1;
    }
  }

  /** `{ url: url.trim() }` for each image. */
  function ImageObjects(images: seq<string>): (r: seq<Json>)
    ensures |r| == |images|
    ensures forall i :: 0 <= i < |images| ==> r[i] == JObj(map["url" := JStr(Trim(images[i]))])
  {
    seq(|images|, i requires 0 <= i < |images| => JObj(map["url" := JStr(Trim(images[i]))]))
  }

  /**
   * The body `JSON.stringify` sends: the texts trimmed, the numbers read,
   * and the display name left out when it trims to nothing.
   */
  function RequestBody(d: FormData, price: int, hours: int): Json {
    var fields := map[
      "brand" := JStr(Trim(d.brand)),
      "model" := JStr(Trim(d.model)),
      "price" := JNum(price),
      "hours_run" := JNum(hours),
      "location_text" := JStr(Trim(d.locationText)),
      "description" := JStr(Trim(d.description)),
      "seller_whatsapp_id" := JStr(Trim(d.sellerWhatsappId)),
      "images" := JArr(ImageObjects(d.images))];
    var name := Trim(d.sellerDisplayName);
    JObj(if name == "" then fields else fields["seller_display_name" := JStr(name)])
  }

  /** The fields the endpoint reads from a body built from the form. */
  function SubmittedFields(d: FormData, price: int, hours: int): Fields {
    var name := Trim(d.sellerDisplayName);
    Fields(Some(JStr(Trim(d.brand))), Some(JStr(Trim(d.model))), Some(JNum(price)), Some(JNum(hours)),
      Some(JStr(Trim(d.locationText))), Some(JStr(Trim(d.description))), Some(JStr(Trim(d.sellerWhatsappId))),
      if name == "" then None else Some(JStr(name)),
      JArr(ImageObjects(d.images)))
  }

  /**
   * The endpoint reads back from the body the trimmed texts, the numbers,
   * the display name only when it is not blank, and one `{url}` object per
   * image.
   */
  lemma RequestBodyFields(d: FormData, price: int, hours: int)
    ensures FieldsOf(RequestBody(d, price, hours)) == SubmittedFields(d, price, hours)
  {
  }

  /**
   * A form that passes the browser checks, and whose texts are not just
   * spaces, passes the endpoint's checks too.
   */
  lemma FormPassesServerChecks(d: FormData)
    requires CheckForm(d).Ok?
    requires Trim(d.brand) != "" && Trim(d.model) != "" && Trim(d.locationText) != "" && Trim(d.description) != ""
    ensures Precheck(true, Some(RequestBody(d, CheckForm(d).value.0, CheckForm(d).value.1))).Ok?
  {
    var p := CheckForm(d).value;
    CheckFormCharacterised(d);
    RequestBodyFields(d, p.0, p.1);
    SubmittedFieldsPass(d, p.0, p.1);
    PrecheckCharacterised(true, Some(RequestBody(d, p.0, p.1)));
  }

  lemma SubmittedFieldsPass(d: FormData, price: int, hours: int)
    requires price > 0 && hours >= 0 && IsWhatsAppId(d.sellerWhatsappId)
    requires Trim(d.brand) != "" && Trim(d.model) != "" && Trim(d.locationText) != "" && Trim(d.description) != ""
    ensures var f := SubmittedFields(d, price, hours);
      Truthy(f.brand) && Truthy(f.model) && Truthy(f.locationText) && Truthy(f.description)
      && f.price.Some? && f.price.value.JNum? && f.price.value.n > 0
      && f.hoursRun.Some? && f.hoursRun.value.JNum? && f.hoursRun.value.n >= 0
      && Truthy(f.sellerId) && IdFormatOk(f.sellerId.value)
  {
    TrimUnchanged(d.sellerWhatsappId);
  }

  /**
   * The browser checks the untrimmed texts and the endpoint the trimmed
   * ones, so a brand of spaces alone passes in the browser and is refused
   * by the endpoint as missing.
   */
  lemma BlankBrandRefusedByServer(d: FormData)
    requires CheckForm(d).Ok? && Trim(d.brand) == ""
    ensures Precheck(true, Some(RequestBody(d, CheckForm(d).value.0, CheckForm(d).value.1)))
      == Err(Refused(400, "Missing required fields"))
  {
    var p := CheckForm(d).value;
    RequestBodyFields(d, p.0, p.1);
  }

  /**
   * Every submitted image reaches the listing: the endpoint turns each
   * `{url}` object of non-blank urls into an image at the trimmed url, in
   * order, with a generated file name and the default size and type.
   */
  lemma SubmittedImagesKept(images: seq<string>, now: nat)
    requires forall i :: 0 <= i < |images| ==> Trim(images[i]) != ""
    ensures var r := NormaliseFrom(ImageObjects(images), now, 0);
      |r| == |images| && forall i :: 0 <= i < |images| ==>
        r[i] == Image(Trim(images[i]), Some(GeneratedFilename(now, i)), Some(0), Some("image/jpeg"))
  {
    UrlObjectImages(images, now);
    var expected := seq(|images|, i requires 0 <= i < |images| =>
      Image(Trim(images[i]), Some(GeneratedFilename(now, i)), Some(0), Some("image/jpeg")));
    NormaliseAllKept(ImageObjects(images), now, 0, expected);
  }

  lemma UrlObjectImages(images: seq<string>, now: nat)
    requires forall i :: 0 <= i < |images| ==> Trim(images[i]) != ""
    ensures forall i :: 0 <= i < |images| ==>
      NormaliseImage(ImageObjects(images)[i], now, 0 + i)
        == Some(Image(Trim(images[i]), Some(GeneratedFilename(now, i)), Some(0), Some("image/jpeg")))
  {
    forall i | 0 <= i < |images|
      ensures NormaliseImage(ImageObjects(images)[i], now, 0 + i)
        == Some(Image(Trim(images[i]), Some(GeneratedFilename(now, i)), Some(0), Some("image/jpeg")))
    {
      UrlObjectImage(images[i], now, i);
    }
  }

  /** One `{url}` object with a non-blank url becomes an image at that url with the defaults. */
  lemma UrlObjectImage(url: string, now: nat, index: nat)
    requires Trim(url) != ""
    ensures NormaliseImage(JObj(map["url" := JStr(Trim(url))]), now, index)
      == Some(Image(Trim(url), Some(GeneratedFilename(now, index)), Some(0), Some("image/jpeg")))
  {
    var x := JObj(map["url" := JStr(Trim(url))]);
    assert Get(Some(x), "filename").None? && Get(Some(x), "size").None? && Get(Some(x), "mimetype").None?;
  }

  /** What came back from `fetch`: the endpoint's reply, or an exception with or without a message. */
  datatype ServerAnswer = Replied(reply: Reply) | Threw(message: Option<string>)

  /** The message shown for a refusal or an exception: `data.error || 'Failed to add generator'`, `error.message`. */
  function FailureMessage(answer: ServerAnswer): string {
    match answer
    case Replied(reply) =>
      if reply.Refused? && reply.error != "" then reply.error else "Failed to add generator"
    case Threw(message) =>
      if message.Some? then message.value else "An error occurred"
  }

  // ---------------------------------------------------------------- the page

  class AddGeneratorForm {
    var formData: FormData
    var imageUrls: seq<string>
    var error: string
    var success: string
    var isLoading: bool

    /** The images in the form data are always the non-blank url fields, in order. */
    ghost predicate Valid()
      reads this
    {
      formData.images == NonBlank(imageUrls)
    }

    constructor()
      ensures Valid()
      ensures formData == EmptyForm && imageUrls == [""] && error == "" && success == "" && !isLoading
    {
      formData := EmptyForm;
      imageUrls := [""];
      error := "";
      success := "";
      isLoading := false;
    }

    /** `handleInputChange`. */
    method HandleInputChange(name: FieldName, value: string)
      requires Valid()
      modifies this
      ensures Valid()
      ensures formData == WithField(old(formData), name, value)
      ensures imageUrls == old(imageUrls) && error == old(error) && success == old(success)
      ensures isLoading == old(isLoading)
    {
      formData := WithField(formData, name, value);
    }

    /** `handleImageUrlChange`: one url field edited, the images recomputed. */
    method HandleImageUrlChange(index: nat, value: string)
      requires Valid() && index < |imageUrls|
      modifies this
      ensures Valid()
      ensures imageUrls == old(imageUrls)[index := value]
      ensures formData == old(formData).(images := NonBlank(imageUrls))
      ensures error == old(error) && success == old(success) && isLoading == old(isLoading)
    {
      imageUrls := imageUrls[index := value];
      formData := formData.(images := NonBlank(imageUrls));
    }

    /** `addImageUrlField`: one empty field at the end; the images stay as they are. */
    method AddImageUrlField()
      requires Valid()
      modifies this
      ensures Valid()
      ensures imageUrls == old(imageUrls) + [""] && formData == old(formData)
      ensures error == old(error) && success == old(success) && isLoading == old(isLoading)
    {
      NonBlankAppend(imageUrls, [""]);
      assert NonBlank([""]) == [] by {
        assert Trim("") == "";
      }
      imageUrls := imageUrls + [""];
    }

    /** `removeImageUrlField`: the field at `index` removed, the images recomputed. */
    method RemoveImageUrlField(index: int)
      requires Valid()
      modifies this
      ensures Valid()
      ensures imageUrls == RemoveAt(old(imageUrls), index)
      ensures formData == old(formData).(images := NonBlank(imageUrls))
      ensures error == old(error) && success == old(success) && isLoading == old(isLoading)
    {
      imageUrls := RemoveAt(imageUrls, index);
      formData := formData.(images := NonBlank(imageUrls));
    }

    /**
     * `handleSubmit`, with the endpoint's answer given. A failed check shows
     * its message and sends nothing; otherwise the body is sent, and a
     * created listing shows the success message and empties the form, while
     * a refusal or an exception shows its message and keeps the form. The
     * result is the body sent, if any.
     */
    method HandleSubmit(answer: ServerAnswer) returns (sent: Option<Json>)
      requires Valid()
      modifies this
      ensures Valid() && !isLoading
      ensures var check := CheckForm(old(formData));
        check.Err? ==>
          sent.None? && error == check.error && success == ""
          && formData == old(formData) && imageUrls == old(imageUrls)
      ensures var check := CheckForm(old(formData));
        check.Ok? ==> sent == Some(RequestBody(old(formData), check.value.0, check.value.1))
      ensures CheckForm(old(formData)).Ok? && answer.Replied? && answer.reply.Created? ==>
        success == AddedMessage && error == "" && formData == EmptyForm && imageUrls == [""]
      ensures CheckForm(old(formData)).Ok? && !(answer.Replied? && answer.reply.Created?) ==>
        success == "" && error == FailureMessage(answer)
        && formData == old(formData) && imageUrls == old(imageUrls)
    {
      isLoading := true;
      error := "";
      success := "";
      var check := CheckForm(formData);
      if check.Err? {
        error := check.error;
        isLoading := false;
        return None;
      }
      var (price, hours) := check.value;
      sent := Some(RequestBody(formData, price, hours));
      if answer.Replied? && answer.reply.Created? {
        success := AddedMessage;
        formData := EmptyForm;
        imageUrls := [""];
        assert NonBlank([""]) == [] by {
          assert Trim("") == "";
        }
      } else {
        error := FailureMessage(answer);
      }
      isLoading := false;
    }
  }
}
