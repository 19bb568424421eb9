/**
 * The listing document of the marketplace (the `Generator` schema of the
 * back end and of the web app, which agree): its fields and defaults, the
 * checks a save performs, the search tags computed before each save, the
 * listing-age label, and the document methods that mark a listing sold
 * and count views and contact clicks.
 */
module GeneratorModel {
  import opened Wrappers
  import opened JsText

  datatype Status = PendingReview | ForSale | Sold | Rejected | FailedParsing

  /** The five values of the status enum, in schema order. */
  const Statuses: seq<Status> := [PendingReview, ForSale, Sold, Rejected, FailedParsing]

  /** The schema's default status. */
  const DefaultStatus: Status := PendingReview

  /** A status's name as stored; distinct statuses have distinct names. */
  function StatusName(s: Status): (r: string)
    ensures StatusOf(r) == Some(s)
  {
    match s
    case PendingReview => "pending_review"
    case ForSale => "for_sale"
    case Sold => "sold"
    case Rejected => "rejected"
    case FailedParsing => "failed_parsing"
  }

  /** The enum check on a status string: `None` for a value outside the enum. */
  function StatusOf(name: string): Option<Status> {
    if name == "pending_review" then Some(PendingReview)
    else if name == "for_sale" then Some(ForSale)
    else if name == "sold" then Some(Sold)
    else if name == "rejected" then Some(Rejected)
    else if name == "failed_parsing" then Some(FailedParsing)
    else None
  }

  /** A media reference; only the url is required. */
  datatype Image = Image(url: string, filename: Option<string>, size: Option<int>, mimetype: Option<string>)

  datatype AuditTrail = AuditTrail(
    messageId: string,
    originalText: Option<string>,
    parsedAt: int,
    parsingErrors: seq<string>,
    approvedBy: Option<string>,
    approvedAt: Option<int>,
    rejectedReason: Option<string>)

  /** A listing. `sellerId` is the seller's messaging identifier, which identifies a user. */
  datatype Listing = Listing(
    brand: string,
    model: string,
    price: int,
    hoursRun: int,
    locationText: string,
    description: string,
    images: seq<Image>,
    status: Status,
    sellerId: string,
    audit: AuditTrail,
    tags: seq<string>,
    views: int,
    whatsappClicks: int,
    soldDate: Option<int>,
    soldPrice: Option<int>)

  const MaxBrand := 50
  const MaxModel := 100
  const MaxLocation := 200
  const MaxDescription := 1000

  /**
   * A new document as the schema builds it: the four text fields trimmed,
   * counters at zero, no tags yet, nothing sold.
   */
  function NewListing(
    brand: string, model: string, price: int, hoursRun: int, locationText: string,
    description: string, images: seq<Image>, status: Status, sellerId: string, audit: AuditTrail): (l: Listing)
    ensures l.brand == Trim(brand) && l.model == Trim(model)
    ensures l.locationText == Trim(locationText) && l.description == Trim(description)
    ensures l.views == 0 && l.whatsappClicks == 0 && l.tags == []
    ensures l.soldDate.None? && l.soldPrice.None?
  {
    Listing(Trim(brand), Trim(model), price, hoursRun, Trim(locationText), Trim(description),
      images, status, sellerId, audit, [], 0, 0, None, None)
  }

  /** A required string fails on the empty string. */
  predicate RequiredText(s: string, max: nat) {
    s != "" && |s| <= max
  }

  /** The schema validators a save runs: required fields, maximum lengths, minimum values. */
  predicate ValidForSave(l: Listing) {
    RequiredText(l.brand, MaxBrand)
    && RequiredText(l.model, MaxModel)
    && l.price >= 0
    && l.hoursRun >= 0
    && RequiredText(l.locationText, MaxLocation)
    && RequiredText(l.description, MaxDescription)
    && (forall i :: 0 <= i < |l.images| ==> l.images[i].url != "")
    && l.sellerId != ""
    && l.audit.messageId != ""
  }

  // ---------------------------------------------------------------- tags

  /** `s.toLowerCase().split(/\s+/)`, or nothing for the empty string (the `if (this.brand)` guard). */
  function Words(s: string): seq<string> {
    if s == "" then [] else SplitWs(Lower(s))
  }

  /** Adding one word to the tag set: kept when longer than two characters and not already present. */
  function AddTag(tags: seq<string>, w: string): seq<string> {
    if |w| > 2 && w !in tags then tags + [w] else tags
  }

  /** The `forEach` over `ws` adding each word to the set. */
  function AddTags(tags: seq<string>, ws: seq<string>): seq<string>
    decreases |ws|
  {
    if ws == [] then tags else AddTag(AddTags(tags, ws[..|ws| - 1]), ws[|ws| - 1])
  }

  /** `Array.from(tags)` after the brand, model and location words were added, in that order. */
  function TagsOf(brand: string, model: string, locationText: string): seq<string> {
    AddTags(AddTags(AddTags([], Words(brand)), Words(model)), Words(locationText))
  }

  predicate NoDuplicates(s: seq<string>) {
    forall i, j :: 0 <= i < j < |s| ==> s[i] != s[j]
  }

  /** One `forEach` loop of the pre-save hook. */
  method AddWords(tags: seq<string>, words: seq<string>) returns (r: seq<string>)
    ensures r == AddTags(tags, words)
  {
    r := tags;
    for i := 0 to |words|
      invariant r == AddTags(tags, words[..i])
    {
      if |words[i]| > 2 && words[i] !in r {
        r := r + [words[i]];
      }
      assert words[..i + 1][..i] == words[..i];
    }
    assert words[..|words|] == words;
  }

  /** The tag computation of the pre-save hook. */
  method GenerateTags(brand: string, model: string, locationText: string) returns (tags: seq<string>)
    ensures tags == TagsOf(brand, model, locationText)
  {
    tags := [];
    if brand != "" {
      tags := AddWords(tags, SplitWs(Lower(brand)));
    }
    if model != "" {
      tags := AddWords(tags, SplitWs(Lower(model)));
    }
    if locationText != "" {
      tags := AddWords(tags, SplitWs(Lower(locationText)));
    }
  }

  /** Adding words keeps what was there, in front, and adds exactly the new long words. */
  lemma {:induction false} AddTagsMembers(tags: seq<string>, ws: seq<string>, t: string)
    ensures tags <= AddTags(tags, ws)
    ensures t in AddTags(tags, ws) <==> t in tags || (t in ws && |t| > 2)
    decreases |ws|
  {
    if ws != [] {
      AddTagsMembers(tags, ws[..|ws| - 1], t);
      assert ws == ws[..|ws| - 1] + [ws[|ws| - 1]];
    }
  }

  /** Adding words never introduces a duplicate. */
  lemma {:induction false} AddTagsDistinct(tags: seq<string>, ws: seq<string>)
    requires NoDuplicates(tags)
    ensures NoDuplicates(AddTags(tags, ws))
    decreases |ws|
  {
    if ws != [] {
      AddTagsDistinct(tags, ws[..|ws| - 1]);
    }
  }

  /**
   * The tags are the distinct words of the lower-cased brand, model and
   * location that are longer than two characters, each once, the brand's
   * first. Punctuation stays part of a word.
   */
  lemma TagsCharacterised(brand: string, model: string, locationText: string, t: string)
    ensures NoDuplicates(TagsOf(brand, model, locationText))
    ensures t in TagsOf(brand, model, locationText) <==>
      |t| > 2 && (t in Words(brand) || t in Words(model) || t in Words(locationText))
    ensures AddTags([], Words(brand)) <= TagsOf(brand, model, locationText)
  {
    var b := AddTags([], Words(brand));
    var bm := AddTags(b, Words(model));
    AddTagsMembers([], Words(brand), t);
    AddTagsMembers(b, Words(model), t);
    AddTagsMembers(bm, Words(locationText), t);
    AddTagsDistinct([], Words(brand));
    AddTagsDistinct(b, Words(model));
    AddTagsDistinct(bm, Words(locationText));
  }

  /** Every word is lower case and contains no white space. */
  lemma WordsShape(s: string, w: string)
    requires w in Words(s)
    ensures NoSpace(w)
    ensures forall i :: 0 <= i < |w| ==> LowerChar(w[i]) == w[i]
  {
    if s != "" {
      var ws := SplitWs(Lower(s));
      var k :| 0 <= k < |ws| && ws[k] == w;
      SplitPiecesLower(Lower(s), k);
    }
  }

  /** The pieces of a lower-cased text are lower case. */
  lemma {:induction false} SplitPiecesLower(s: string, k: nat)
    requires forall i :: 0 <= i < |s| ==> LowerChar(s[i]) == s[i]
    requires k < |SplitWs(s)|
    ensures forall i :: 0 <= i < |SplitWs(s)[k]| ==> LowerChar(SplitWs(s)[k][i]) == SplitWs(s)[k][i]
    decreases |s|
  {
    var n := NextSpace(s, 0);
    if n < |s| && k > 0 {
      SplitPiecesLower(s[SkipSpace(s, n)..], k - 1);
    }
  }

  /**
   * The pre-save hook: on a new document, or when the brand, model or
   * location differs from the stored one, the tags are recomputed;
   * otherwise the document is saved as it is.
   */
  function PreSave(stored: Option<Listing>, l: Listing): (r: Listing)
    ensures r == l.(tags := r.tags)
    ensures (stored.Some? && stored.value.brand == l.brand && stored.value.model == l.model
      && stored.value.locationText == l.locationText) ==> r == l
    ensures stored.None? ==> r.tags == TagsOf(l.brand, l.model, l.locationText)
  {
    if stored.None? || stored.value.brand != l.brand || stored.value.model != l.model
      || stored.value.locationText != l.locationText
    then l.(tags := TagsOf(l.brand, l.model, l.locationText))
    else l
  }

  // ---------------------------------------------------------------- listing age

  const MsPerDay: nat := 86400000

  /** `Math.ceil(Math.abs(now - created) / (1000 * 60 * 60 * 24))` on millisecond timestamps. */
  function DiffDays(nowMs: int, createdMs: int): (d: nat)
    ensures var diff := if nowMs >= createdMs then nowMs - createdMs else createdMs - nowMs;
      (d as int - 1) * MsPerDay < diff <= d * MsPerDay
  {
    var diff := if nowMs >= createdMs then nowMs - createdMs else createdMs - nowMs;
    (diff + MsPerDay - 1) / MsPerDay
  }

  /** The age label for a whole number of days. */
  function AgeLabel(days: nat): string {
    if days == 1 then "1 day ago"
    else if days < 7 then NatToString(days) + " days ago"
    else if days < 30 then NatToString(days / 7) + " weeks ago"
    else NatToString(days / 30) + " months ago"
  }

  /** `listingAge`: the label for the days between creation and now. */
  function ListingAge(nowMs: int, createdMs: int): string {
    AgeLabel(DiffDays(nowMs, createdMs))
  }

  /**
   * The label starts with a number that `parseInt` reads back, followed by
   * its unit: the day count itself below a week, the whole weeks below
   * thirty days, and the whole thirty-day months beyond.
   */
  lemma AgeLabelBuckets(days: nat)
    ensures ParseInt(AgeLabel(days)).Some?
    ensures var n := ParseInt(AgeLabel(days)).value;
      var text := AgeLabel(days);
      (days < 7 ==> n == days && text == NatToString(n) + (if n == 1 then " day ago" else " days ago"))
      && (7 <= days < 30 ==> 1 <= n <= 4 && 7 * n <= days < 7 * n + 7 && text == NatToString(n) + " weeks ago")
      && (30 <= days ==> 1 <= n && 30 * n <= days < 30 * n + 30 && text == NatToString(n) + " months ago")
  {
    var n := if days < 7 then days else if days < 30 then days / 7 else days / 30;
    var unit := if days == 1 then " day ago" else if days < 7 then " days ago"
      else if days < 30 then " weeks ago" else " months ago";
    assert AgeLabel(days) == NatToString(n) + unit;
    ParseIntLeadingDigits(NatToString(n), unit);
  }

  // ---------------------------------------------------------------- document methods

  /** `markAsSold(soldPrice)`: status sold, sold date now, the sold price only for a truthy argument. */
  function MarkedSold(l: Listing, soldPrice: Option<int>, now: int): (r: Listing)
    ensures r.status == Sold && r.soldDate == Some(now)
    ensures r.soldPrice == if soldPrice.Some? && soldPrice.value != 0 then soldPrice else l.soldPrice
    ensures r == l.(status := Sold, soldDate := Some(now), soldPrice := r.soldPrice)
  {
    l.(status := Sold, soldDate := Some(now),
       soldPrice := if soldPrice.Some? && soldPrice.value != 0 then soldPrice else l.soldPrice)
  }

  /** Marking sold and counting views or clicks keep a document valid for saving, and leave its tags alone. */
  lemma DocumentMethodsKeepValid(l: Listing, soldPrice: Option<int>, now: int)
    requires ValidForSave(l)
    ensures ValidForSave(MarkedSold(l, soldPrice, now)) && PreSave(Some(l), MarkedSold(l, soldPrice, now)) == MarkedSold(l, soldPrice, now)
    ensures ValidForSave(l.(views := l.views + 1)) && PreSave(Some(l), l.(views := l.views + 1)) == l.(views := l.views + 1)
    ensures ValidForSave(l.(whatsappClicks := l.whatsappClicks + 1))
  {
  }
}
