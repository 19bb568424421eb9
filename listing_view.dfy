/**
 * What the listing card and the listing page compute for display: the
 * shortened description, the age label, the seller label, the views badge,
 * the image carousel's index and the seller's other listings.
 */
module ListingView {
  import opened Wrappers
  import opened JsText
  import opened GeneratorModel

  // ---------------------------------------------------------------- the card

  const DescriptionLength: nat := 100

  /** `truncateDescription`: the text when it fits, else its first `maxLength` characters and "...". */
  function Truncate(text: string, maxLength: nat): (r: string)
    ensures |text| <= maxLength ==> r == text
    ensures |text| > maxLength ==> |r| == maxLength + 3 && r == text[..maxLength] + "..."
  {
    if |text| <= maxLength then text else text[..maxLength] + "..."
  }

  /**
   * The card's description never exceeds 103 characters and always begins
   * with as much of the text as fits. It is the text itself exactly when
   * the text fits, or when it is 103 characters that already end in "...".
   */
  lemma CardDescription(text: string)
    ensures |Truncate(text, DescriptionLength)| <= DescriptionLength + 3
    ensures var n := if |text| < DescriptionLength then |text| else DescriptionLength;
      text[..n] <= Truncate(text, DescriptionLength)
    ensures Truncate(text, DescriptionLength) == text <==>
      (|text| <= DescriptionLength || (|text| == DescriptionLength + 3 && text[DescriptionLength..] == "..."))
  {
    var r := Truncate(text, DescriptionLength);
    if |text| > DescriptionLength {
      assert r[DescriptionLength..] == "...";
      if |text| == DescriptionLength + 3 && text[DescriptionLength..] == "..." {
        assert text == text[..DescriptionLength] + text[DescriptionLength..];
      }
    }
  }

  /**
   * The card's `formatDate` is the listing-age rule: "1 day ago" exactly
   * when the two times are at most a day apart but not equal, and a
   * listing created this very millisecond reads "0 days ago".
   */
  lemma CardDateOneDay(nowMs: int, createdMs: int)
    ensures ListingAge(nowMs, createdMs) == "1 day ago" <==>
      nowMs != createdMs && -(MsPerDay as int) <= nowMs - createdMs <= MsPerDay
    ensures nowMs == createdMs ==> ListingAge(nowMs, createdMs) == "0 days ago"
  {
    AgeLabelBuckets(DiffDays(nowMs, createdMs));
  }

  /**
   * `display_name || "Seller " + whatsapp_id.slice(-4)`: the display name
   * when it is a non-empty string, else a label from the id's last four
   * characters.
   */
  function SellerLabel(displayName: Option<string>, whatsappId: string): (r: string)
    ensures displayName.Some? && displayName.value != "" ==> r == displayName.value
    ensures !(displayName.Some? && displayName.value != "") ==>
      ("Seller " <= r && r[7..] == SliceLast(whatsappId, 4))
  {
    if displayName.Some? && displayName.value != "" then displayName.value
    else "Seller " + SliceLast(whatsappId, 4)
  }

  /**
   * A missing and an empty name give the same label: "Seller " and the
   * id's last four characters, eleven characters in all; and that label,
   * stored as the name, shows unchanged.
   */
  lemma UnnamedSellerLabel(whatsappId: string)
    requires |whatsappId| >= 4
    ensures SellerLabel(None, whatsappId) == SellerLabel(Some(""), whatsappId)
    ensures |SellerLabel(None, whatsappId)| == 11
    ensures SellerLabel(None, whatsappId)[7..] == whatsappId[|whatsappId| - 4..]
    ensures SellerLabel(Some(SellerLabel(None, whatsappId)), whatsappId) == SellerLabel(None, whatsappId)
  {
  }

  /** The views badge is shown for a listing seen at least once, never for an unknown count. */
  predicate ShowsViews(views: Option<int>) {
    views.Some? && views.value > 0
  }

  lemma ViewsBadge(l: Listing)
    ensures ShowsViews(Some(l.views)) <==> l.views >= 1
    ensures !ShowsViews(None)
  {
  }

  // ---------------------------------------------------------------- the listing page

  /** `nextImage`: past the last image back to the first. */
  function NextImage(prev: int, count: nat): int {
    if prev == count - 1 then 0 else prev + 1
  }

  /** `prevImage`: before the first image round to the last. */
  function PrevImage(prev: int, count: nat): int {
    if prev == 0 then count - 1 else prev - 1
  }

  /**
   * With at least one image both moves keep the index on an image, and
   * each undoes the other.
   */
  lemma CarouselCharacterised(i: int, count: nat)
    requires count > 0 && 0 <= i < count
    ensures 0 <= NextImage(i, count) < count && 0 <= PrevImage(i, count) < count
    ensures PrevImage(NextImage(i, count), count) == i
    ensures NextImage(PrevImage(i, count), count) == i
    ensures NextImage(i, count) == (i + 1) % count
    ensures PrevImage(i, count) == (i + count - 1) % count
  {
  }

  /** `n` presses of "next". */
  function NextTimes(i: int, count: nat, n: nat): int {
    if n == 0 then i else NextImage(NextTimes(i, count, n - 1), count)
  }

  /**
   * `n` presses of "next", for `n` up to the number of images, move `n`
   * images on, round past the last one.
   */
  lemma {:induction false} NextCycles(i: int, count: nat, n: nat)
    requires count > 0 && 0 <= i < count && n <= count
    ensures NextTimes(i, count, n) == if i + n < count then i + n else i + n - count
  {
    if n > 0 {
      NextCycles(i, count, n - 1);
    }
  }

  /** Pressing "next" once per image comes back to the image shown first. */
  lemma FullCycle(i: int, count: nat)
    requires count > 0 && 0 <= i < count
    ensures NextTimes(i, count, count) == i
  {
    NextCycles(i, count, count);
  }

  const OtherListingsShown: nat := 3

  /** `sellerOtherListings.slice(0, 3)`. */
  function FirstOthers<T>(others: seq<T>): (r: seq<T>)
    ensures |r| <= OtherListingsShown && r <= others
    ensures |others| <= OtherListingsShown ==> r == others
    ensures |others| > OtherListingsShown ==> |r| == OtherListingsShown
  {
    if |others| <= OtherListingsShown then others else others[..OtherListingsShown]
  }
}
