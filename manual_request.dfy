/**
 * The administrator's "add a listing by hand" request as functions: a
 * chain of checks that each end the request with an error reply, the
 * seller looked up or created, the images normalised, and the listing
 * document saved for sale, after which the seller's count goes up by one.
 */
module ManualRequest {
  import opened Wrappers
  import opened JsText
  import opened Json
  import opened GeneratorModel
  import opened UserModel
  import opened Store

  /** The JSON reply: the created listing with its seller, or an HTTP status with an error text. */
  datatype Reply = Created(listing: Listing, seller: User) | Refused(status: nat, error: string)

  /** The reply of the catch-all handler, for anything that throws. */
  const ServerError := Refused(500, "Failed to create generator")

  /** The properties destructured from the body; `images` defaults to an empty array. */
  datatype Fields = Fields(
    brand: Option<Json>,
    model: Option<Json>,
    price: Option<Json>,
    hoursRun: Option<Json>,
    locationText: Option<Json>,
    description: Option<Json>,
    sellerId: Option<Json>,
    sellerDisplayName: Option<Json>,
    images: Json)

  function FieldsOf(body: Json): Fields {
    var b := Some(body);
    var images := Get(b, "images");
    Fields(Get(b, "brand"), Get(b, "model"), Get(b, "price"), Get(b, "hours_run"), Get(b, "location_text"),
      Get(b, "description"), Get(b, "seller_whatsapp_id"), Get(b, "seller_display_name"),
      if images.Some? then images.value else JArr([]))
  }

  /**
   * `/^\d{10,15}$/.test(id)`: the test reads the value as text, so a
   * number passes when its decimal digits have the format.
   */
  predicate IdFormatOk(id: Json) {
    var t := KeyText(id);
    t.Some? && IsWhatsAppId(t.value)
  }

  /** What the checks guarantee of the fields they pass: a positive price, non-negative hours, a well-formed seller id. */
  predicate Checked(f: Fields) {
    f.price.Some? && f.price.value.JNum? && f.price.value.n > 0
    && f.hoursRun.Some? && f.hoursRun.value.JNum? && f.hoursRun.value.n >= 0
    && f.sellerId.Some? && IdFormatOk(f.sellerId.value)
  }

  /**
   * The checks made before the database is touched, in order: the
   * administrator, a body that can be destructured (`null` or unreadable
   * JSON throws), the required fields, the price, the hours, the seller id.
   */
  function Precheck(isAdmin: bool, body: Option<Json>): (r: Result<Fields, Reply>)
    ensures !isAdmin ==> r == Err(Refused(401, "Unauthorized access"))
    ensures r.Ok? ==> body.Some? && r.value == FieldsOf(body.value) && Checked(r.value)
  {
    if !isAdmin then Err(Refused(401, "Unauthorized access"))
    else if body.None? || body.value.JNull? then Err(ServerError)
    else
      var f := FieldsOf(body.value);
      if !Truthy(f.brand) || !Truthy(f.model) || !Truthy(f.price) || f.hoursRun.None?
        || !Truthy(f.locationText) || !Truthy(f.description) || !Truthy(f.sellerId)
      then Err(Refused(400, "Missing required fields"))
      else if !f.price.value.JNum? || f.price.value.n <= 0 then Err(Refused(400, "Price must be a positive number"))
      else if !f.hoursRun.value.JNum? || f.hoursRun.value.n < 0 then Err(Refused(400, "Hours run must be a non-negative number"))
      else if !IdFormatOk(f.sellerId.value) then Err(Refused(400, "Invalid WhatsApp ID format"))
      else Ok(f)
  }

  /**
   * What passes the checks: an administrator's non-null body with every
   * required field truthy (`hours_run` only present), a positive number as
   * price, a non-negative number as hours and a seller id of 10 to 15
   * digits.
   */
  lemma PrecheckCharacterised(isAdmin: bool, body: Option<Json>)
    ensures Precheck(isAdmin, body).Ok? <==>
      isAdmin && body.Some? && !body.value.JNull?
      && (var f := FieldsOf(body.value);
          Truthy(f.brand) && Truthy(f.model) && Truthy(f.locationText) && Truthy(f.description)
          && f.price.Some? && f.price.value.JNum? && f.price.value.n > 0
          && f.hoursRun.Some? && f.hoursRun.value.JNum? && f.hoursRun.value.n >= 0
          && Truthy(f.sellerId) && IdFormatOk(f.sellerId.value))
  {
  }

  /**
   * The truthiness test makes a price of 0 a missing field rather than a
   * bad price, while `hours_run` is only looked at for presence, so 0 hours
   * gets through to the number check and passes it.
   */
  lemma ZeroPriceReadsAsMissing(body: Json)
    requires !body.JNull? && Get(Some(body), "price") == Some(JNum(0))
    ensures Precheck(true, Some(body)) == Err(Refused(400, "Missing required fields"))
  {
  }

  lemma ZeroHoursAccepted(body: Json)
    requires !body.JNull? && Get(Some(body), "hours_run") == Some(JNum(0))
    requires var f := FieldsOf(body);
      Truthy(f.brand) && Truthy(f.model) && Truthy(f.locationText) && Truthy(f.description)
      && f.price.Some? && f.price.value.JNum? && f.price.value.n > 0
      && Truthy(f.sellerId) && IdFormatOk(f.sellerId.value)
    ensures Precheck(true, Some(body)).Ok?
  {
  }

  /** A price that is not a number, and then hours below zero, are reported in that order. */
  lemma PrecheckErrorsOrdered(isAdmin: bool, body: Option<Json>)
    requires isAdmin && body.Some? && !body.value.JNull?
    requires var f := FieldsOf(body.value);
      Truthy(f.brand) && Truthy(f.model) && Truthy(f.price) && f.hoursRun.Some?
      && Truthy(f.locationText) && Truthy(f.description) && Truthy(f.sellerId)
    ensures var f := FieldsOf(body.value);
      !f.price.value.JNum? ==> Precheck(isAdmin, body) == Err(Refused(400, "Price must be a positive number"))
    ensures var f := FieldsOf(body.value);
      f.price.value.JNum? && f.price.value.n > 0 && f.hoursRun.value.JNum? && f.hoursRun.value.n < 0 ==>
        Precheck(isAdmin, body) == Err(Refused(400, "Hours run must be a non-negative number"))
  {
  }

  // ---------------------------------------------------------------- the seller

  /** The seller id as the text it is stored under; the checks guarantee it has one. */
  function SellerKey(f: Fields): (r: string)
    requires Checked(f)
    ensures IsWhatsAppId(r) && Trim(r) == r
  {
    var key := KeyText(f.sellerId.value).value;
    TrimUnchanged(key);
    key
  }

  /**
   * The name a new seller is created with: the given name when truthy, as
   * the text it is cast to, otherwise `Seller ` and the last four digits of
   * the id; `None` when that throws (a given name the cast refuses,
   * `.slice` on a numeric id).
   */
  function NewSellerName(f: Fields): Option<string>
    requires Checked(f)
  {
    if Truthy(f.sellerDisplayName) then
      var cast := StringCast(f.sellerDisplayName);
      if cast.Ok? then cast.value else None
    else if f.sellerId.value.JStr? then Some("Seller " + SliceLast(SellerKey(f), 4))
    else None
  }

  /**
   * The new seller as saved, or `None` when its name throws or the
   * validators refuse it: a given name is stored as the trimmed text it is
   * cast to, so `true` is saved as "true" while an array or a plain object
   * fails the save.
   */
  function NewSeller(f: Fields, now: int): (r: Option<User>)
    requires Checked(f)
    ensures r.Some? ==>
      ValidUser(r.value) && r.value.whatsappId == SellerKey(f) && r.value.role == Seller && r.value.totalListings == 0
      && r.value.isActive && r.value.successfulSales == 0
    ensures Truthy(f.sellerDisplayName) && StringCast(f.sellerDisplayName).Err? ==> r.None?
    ensures Truthy(f.sellerDisplayName) && StringCast(f.sellerDisplayName).Ok? ==>
      var s := StringCast(f.sellerDisplayName).value.value;
      (r.Some? <==> |Trim(s)| <= MaxDisplayName) && (r.Some? ==> r.value.displayName == Some(Trim(s)))
    ensures !Truthy(f.sellerDisplayName) ==> (r.Some? <==> f.sellerId.value.JStr?)
  {
    var name := NewSellerName(f);
    if name.None? then None
    else
      var u := NewUser(SellerKey(f), name, Seller, now);
      if ValidUser(u) then Some(u) else None
  }

  /**
   * A stored seller with the given name filled in, as the trimmed text it
   * is cast to, or `None` when the cast or the validators refuse it.
   */
  function Backfilled(u: User, f: Fields): (r: Option<User>)
    ensures r.Some? ==> ValidUser(r.value) && r.value == u.(displayName := r.value.displayName)
    ensures StringCast(f.sellerDisplayName).Err? ==> r.None?
    ensures StringCast(f.sellerDisplayName).Ok? && StringCast(f.sellerDisplayName).value.Some? ==>
      var v := u.(displayName := Some(Trim(StringCast(f.sellerDisplayName).value.value)));
      (r.Some? <==> ValidUser(v)) && (r.Some? ==> r.value == v)
  {
    var name := StringCast(f.sellerDisplayName);
    if name.Err? || name.value.None? then None
    else
      var v := u.(displayName := Some(Trim(name.value.value)));
      if ValidUser(v) then Some(v) else None
  }

  /**
   * The seller step: the user stored under the id, with the display name
   * backfilled when it has none and a truthy one is given, or a new
   * seller. The result is the seller and the users after any save; `None`
   * when something throws.
   */
  function SellerStep(us: Users, f: Fields, now: int): Option<(User, Users)>
    requires Checked(f)
  {
    var key := SellerKey(f);
    if key !in us then
      var u := NewSeller(f, now);
      if u.Some? then Some((u.value, us[key := u.value])) else None
    else if Truthy(f.sellerDisplayName) && !UserModel.TruthyText(us[key].displayName) then
      var u := Backfilled(us[key], f);
      if u.Some? then Some((u.value, us[key := u.value])) else None
    else Some((us[key], us))
  }

  // ---------------------------------------------------------------- images

  /**
   * One element of `images` after the `map`: a string becomes an image at
   * that url with a generated file name, size 0 and JPEG type; an object
   * with a truthy url keeps its own truthy fields and gets the same
   * defaults for the others; anything else becomes `null` and is dropped.
   */
  function NormaliseImage(x: Json, now: nat, index: nat): (r: Option<Image>)
    ensures x.JStr? ==> r == Some(Image(x.s, Some(GeneratedFilename(now, index)), Some(0), Some("image/jpeg")))
    ensures !x.JStr? && !x.JObj? ==> r.None?
    ensures r.Some? ==> r.value.filename.Some? && r.value.size.Some? && r.value.mimetype.Some?
  {
    if x.JStr? then Some(Image(x.s, Some(GeneratedFilename(now, index)), Some(0), Some("image/jpeg")))
    else if x.JObj? && Truthy(Get(Some(x), "url")) && KeyText(Get(Some(x), "url").value).Some? then
      var filename := Get(Some(x), "filename");
      var size := Get(Some(x), "size");
      var mimetype := Get(Some(x), "mimetype");
      Some(Image(KeyText(Get(Some(x), "url").value).value,
        Some(if Truthy(filename) && KeyText(filename.value).Some? then KeyText(filename.value).value
             else GeneratedFilename(now, index)),
        Some(if Truthy(size) && size.value.JNum? then size.value.n else 0),
        Some(if Truthy(mimetype) && KeyText(mimetype.value).Some? then KeyText(mimetype.value).value
             else "image/jpeg")))
    else None
  }

  /** `manual_upload_${Date.now()}_${index}`. */
  function GeneratedFilename(now: nat, index: nat): string {
    "manual_upload_" + NatToString(now) + "_" + NatToString(index)
  }

  /** `images.map(...).filter(Boolean)` from position `from` on. */
  function NormaliseFrom(items: seq<Json>, now: nat, from: nat): (r: seq<Image>)
    ensures |r| <= |items|
    decreases |items|
  {
    if items == [] then []
    else
      var head := NormaliseImage(items[0], now, from);
      (if head.Some? then [head.value] else []) + NormaliseFrom(items[1..], now, from + 1)
  }

  /** The normalised images, or `None` when `images` is not an array and `.map` throws. */
  function NormaliseImages(images: Json, now: nat): Option<seq<Image>> {
    if images.JArr? then Some(NormaliseFrom(images.items, now, 0)) else None
  }

  /**
   * Normalising keeps the order: the images of two runs of elements are
   * the images of the first run followed by those of the second, whose
   * positions continue the count.
   */
  lemma {:induction false} NormaliseAppend(a: seq<Json>, b: seq<Json>, now: nat, from: nat)
    ensures NormaliseFrom(a + b, now, from) == NormaliseFrom(a, now, from) + NormaliseFrom(b, now, from + |a|)
    decreases |a|
  {
    if a == [] {
      assert a + b == b;
    } else {
      assert (a + b)[0] == a[0] && (a + b)[1..] == a[1..] + b;
      NormaliseAppend(a[1..], b, now, from + 1);
    }
  }

  /** When no element is dropped, the images are the elements' own, in order, numbered from `from`. */
  lemma {:induction false} NormaliseAllKept(items: seq<Json>, now: nat, from: nat, images: seq<Image>)
    requires |images| == |items|
    requires forall i :: 0 <= i < |items| ==> NormaliseImage(items[i], now, from + i) == Some(images[i])
    ensures NormaliseFrom(items, now, from) == images
    decreases |items|
  {
    if items != [] {
      var tail, rest := items[1..], images[1..];
      forall i | 0 <= i < |tail| ensures NormaliseImage(tail[i], now, from + 1 + i) == Some(rest[i]) {
        assert tail[i] == items[i + 1] && rest[i] == images[i + 1];
      }
      NormaliseAllKept(tail, now, from + 1, rest);
      assert NormaliseImage(items[0], now, from + 0) == Some(images[0]);
      assert images == [images[0]] + rest;
    }
  }

  /** A list of url strings keeps every entry, in order, each at its own url. */
  lemma NormaliseStrings(items: seq<Json>, now: nat, from: nat)
    requires forall i :: 0 <= i < |items| ==> items[i].JStr?
    ensures var r := NormaliseFrom(items, now, from);
      |r| == |items| && forall i :: 0 <= i < |items| ==>
        r[i] == Image(items[i].s, Some(GeneratedFilename(now, from + i)), Some(0), Some("image/jpeg"))
  {
    var images := seq(|items|, i requires 0 <= i < |items| =>
      Image(items[i].s, Some(GeneratedFilename(now, from + i)), Some(0), Some("image/jpeg")));
    NormaliseAllKept(items, now, from, images);
  }

  // ---------------------------------------------------------------- the listing

  /** The four text fields are strings, so `.trim()` does not throw. */
  predicate TextFields(f: Fields) {
    f.brand.Some? && f.brand.value.JStr? && f.model.Some? && f.model.value.JStr?
    && f.locationText.Some? && f.locationText.value.JStr? && f.description.Some? && f.description.value.JStr?
  }

  /** `manual_${Date.now()}_${random}`. */
  function ManualMessageId(now: nat, random: string): (r: string)
    ensures |r| > 7 && r[..7] == "manual_"
  {
    "manual_" + NatToString(now) + "_" + random
  }

  /** The document `new Generator(...)` builds: for sale, with an audit trail naming the administrator's entry. */
  function ManualDocument(f: Fields, images: seq<Image>, sellerId: string, now: nat, random: string): Listing
    requires TextFields(f) && f.price.Some? && f.price.value.JNum? && f.hoursRun.Some? && f.hoursRun.value.JNum?
  {
    var brand := f.brand.value.s;
    var model := f.model.value.s;
    NewListing(Trim(brand), Trim(model), f.price.value.n, f.hoursRun.value.n, Trim(f.locationText.value.s),
      Trim(f.description.value.s), images, ForSale, sellerId,
      AuditTrail(ManualMessageId(now, random), Some("Manually added by admin: " + brand + " " + model),
        now, [], Some(sellerId), Some(now), None))
  }

  /**
   * The listing step, after the seller step: the images normalised, the
   * document saved, and the seller saved with one more listing. A failure
   * keeps what the seller step saved.
   */
  function ListingStep(ls: Listings, us: Users, seller: User, f: Fields, now: nat, random: string)
    : (Reply, Listings, Users)
    requires Checked(f)
  {
    var images := NormaliseImages(f.images, now);
    if images.None? || !TextFields(f) then (ServerError, ls, us)
    else Publish(ls, us, seller, ManualDocument(f, images.value, seller.whatsappId, now, random))
  }

  /** Saving the built document, then the seller with one more listing. */
  function Publish(ls: Listings, us: Users, seller: User, doc: Listing): (Reply, Listings, Users) {
    var ins := InsertResult(ls, doc);
    if ins.Err? then (ServerError, ls, us)
    else
      var counted := seller.(totalListings := seller.totalListings + 1);
      (Created(ins.value, counted), ls[ins.value.audit.messageId := ins.value], us[seller.whatsappId := counted])
  }

  /** The whole request on the stored listings and users: the reply and the two collections afterwards. */
  function Outcome(ls: Listings, us: Users, isAdmin: bool, body: Option<Json>, now: nat, random: string)
    : (Reply, Listings, Users)
  {
    var pre := Precheck(isAdmin, body);
    if pre.Err? then (pre.error, ls, us)
    else
      var step := SellerStep(us, pre.value, now);
      if step.None? then (ServerError, ls, us)
      else ListingStep(ls, step.value.1, step.value.0, pre.value, now, random)
  }
}
