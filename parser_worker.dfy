/**
 * The parser worker: it takes queued webhook deliveries one at a time,
 * records the sender, and either handles a reply (the SOLD shortcut) or
 * parses a text message into a new listing with its media. Every failure
 * inside a delivery is caught and ends that delivery; what was saved
 * before the failure stays saved.
 */
module ParserWorker {
  import opened Wrappers
  import opened JsText
  import opened Json
  import opened GeneratorModel
  import opened UserModel
  import opened Store
  import opened ListingParser
  import opened MediaResolver
  import opened SoldWorkflow
  import opened RedisQueue

  /** `payload.entry?.[0]?.changes?.[0]?.value`. */
  function ChangeValue(payload: Json): Option<Json> {
    Get(At(Get(At(Get(Some(payload), "entry"), 0), "changes"), 0), "value")
  }

  /** The first message of a non-empty `messages` array; `None` when there is nothing to process. */
  function FirstMessage(value: Option<Json>): Option<Json> {
    var messages := Get(value, "messages");
    if messages.Some? && messages.value.JArr? && messages.value.items != [] then Some(messages.value.items[0])
    else None
  }

  /** `contact?.profile?.name || contact?.wa_id` for the first contact: the value handed to `findOrCreate`. */
  function SenderName(value: Option<Json>): Option<Json> {
    var contact := At(Get(value, "contacts"), 0);
    var name := Get(Get(contact, "profile"), "name");
    if Truthy(name) then name else Get(contact, "wa_id")
  }

  /** `message.from` when it is a string. */
  function Sender(message: Json): Option<string> {
    var from := Get(Some(message), "from");
    if from.Some? && from.value.JStr? then Some(from.value.s) else None
  }

  /** `message.text.body` when it is a string; `None` stands for any other value, which the parser rejects. */
  function BodyText(text: Option<Json>): Option<string> {
    var body := Get(text, "body");
    if body.Some? && body.value.JStr? then Some(body.value.s) else None
  }

  /** The truthy `image`, `video` and `document` of a message, in that order. */
  function MediaItems(message: Json): seq<Json> {
    var image := Get(Some(message), "image");
    var video := Get(Some(message), "video");
    var document := Get(Some(message), "document");
    (if Truthy(image) then [image.value] else [])
    + (if Truthy(video) then [video.value] else [])
    + (if Truthy(document) then [document.value] else [])
  }

  /** The `Number` cast of a price or hours value: text that is not a plain decimal numeral fails the cast. */
  function CastNumber(q: Quantity): (r: Option<int>)
    ensures q.Num? ==> r == Some(q.n)
    ensures r.Some? ==> r.value >= 0
  {
    match q
    case Num(n) => Some(n)
    case Raw(t) => if t != "" && AllDigits(t) then Some(DecimalValue(t)) else None
  }

  /**
   * `message.id` as the string it is saved as, through Mongoose's `String`
   * cast; `None` when it is nullish, which the `required` validator
   * refuses, or when the cast fails.
   */
  function MessageId(message: Json): (r: Option<string>)
    ensures var cast := StringCast(Get(Some(message), "id"));
      r.Some? <==> cast.Ok? && cast.value.Some?
    ensures r.Some? ==> StringCast(Get(Some(message), "id")) == Ok(r)
  {
    var cast := StringCast(Get(Some(message), "id"));
    if cast.Ok? then cast.value else None
  }

  function ErrorTexts(es: seq<ParseError>): (r: seq<string>)
    ensures |r| == |es| && forall i :: 0 <= i < |es| ==> r[i] == ErrorText(es[i])
  {
    seq(|es|, i requires 0 <= i < |es| => ErrorText(es[i]))
  }

  /**
   * The listing document built from a parse: `None` where the save must
   * fail before validation even looks at lengths (no data, no message
   * identifier, a price or hours that does not cast to a number).
   */
  function Draft(pr: ParseResult, images: seq<Image>, sellerId: string, message: Json,
                 messageText: Option<string>, now: int): (r: Option<Listing>)
    ensures r.Some? ==> (r.value.status == (if pr.success then PendingReview else FailedParsing)
      && Some(r.value.audit.messageId) == MessageId(message)
      && r.value.audit.parsingErrors == ErrorTexts(pr.errors)
      && r.value.sellerId == sellerId && r.value.images == images)
  {
    if pr.data.None? || MessageId(message).None? then None
    else
      var d := pr.data.value;
      var price := CastNumber(d.price);
      var hours := CastNumber(d.hoursRun);
      if price.None? || hours.None? then None
      else Some(NewListing(d.brand, d.model, price.value, hours.value, d.locationText, d.description, images,
        if pr.success then PendingReview else FailedParsing, sellerId,
        AuditTrail(MessageId(message).value, messageText, now, ErrorTexts(pr.errors), None, None, None)))
  }

  /**
   * `handleReply` of the worker: on a "sold" reply to a listing of this
   * seller, the listing is marked sold and the seller's successful sales
   * rise, with no check of the listing's status.
   */
  function ReplySpec(ls: Listings, us: Users, message: Json, u: User, now: int): (Listings, Users) {
    if ReplyText(message) != Ok(Some("sold")) || !Truthy(ContextId(message)) then (ls, us)
    else
      var query := MessageIdQuery(ContextId(message).value);
      if !query.ById? || query.key !in ls || ls[query.key].sellerId != u.whatsappId then (ls, us)
      else (ls[query.key := MarkedSold(ls[query.key], None, now)],
            us[u.whatsappId := u.(successfulSales := u.successfulSales + 1)])
  }

  /**
   * The listing a text message asks to save: its parse, with the price
   * pattern's currency marker `cur`, and its collected media; `None` when
   * none can be saved.
   */
  function TextDraft(message: Json, cur: Currency, sellerId: string, fetch: nat -> Fetch, now: int): Option<Listing> {
    var text := Get(Some(message), "text");
    if Nullish(text) then None
    else
      var messageText := BodyText(text);
      var items := MediaItems(message);
      Draft(ParseSpec(messageText, cur, true), Collected(items, fetch, |items|), sellerId, message, messageText, now)
  }

  /** Saving the listing, then counting it for the seller; a failed save ends the delivery. */
  function SaveDraft(ls: Listings, us: Users, u: User, draft: Option<Listing>): (Listings, Users) {
    if draft.None? then (ls, us)
    else (AfterInsert(ls, draft.value), if InsertResult(ls, draft.value).Ok? then Counted(us, u) else us)
  }

  /** The seller stored with one listing more. */
  function Counted(us: Users, u: User): Users {
    us[u.whatsappId := CountedUser(u)]
  }

  /** `user.total_listings += 1`. */
  function CountedUser(u: User): User {
    u.(totalListings := u.totalListings + 1)
  }

  /** What follows once the sender is recorded: the reply branch, the text branch, or nothing. */
  function Branch(ls: Listings, us: Users, message: Json, cur: Currency, u: User, fetch: nat -> Fetch, now: int): (Listings, Users) {
    if Truthy(ContextId(message)) then ReplySpec(ls, us, message, u, now)
    else if Get(Some(message), "type") == Some(JStr("text")) then SaveDraft(ls, us, u, TextDraft(message, cur, u.whatsappId, fetch, now))
    else (ls, us)
  }

  /** `findOrCreate` and `updateActivity` for the sender: the users afterwards and the recorded user. */
  function Recorded(us: Users, sender: string, senderName: Option<Json>, now: int): Option<(Users, User)> {
    var found := FindOrCreateResult(us, sender, senderName, now);
    if found.Err? then None
    else
      var u := Touched(found.value.1, now);
      Some((found.value.0[u.whatsappId := u], u))
  }

  /** `processMessage` on the collections: what one delivery leaves behind. */
  function ProcessSpec(ls: Listings, us: Users, payload: Json, cur: Currency, fetch: nat -> Fetch, now: int): (Listings, Users) {
    var value := ChangeValue(payload);
    var message := FirstMessage(value);
    if message.None? || Sender(message.value).None? then (ls, us)
    else
      var rec := Recorded(us, Sender(message.value).value, SenderName(value), now);
      if rec.None? then (ls, us)
      else Branch(ls, rec.value.0, message.value, cur, rec.value.1, fetch, now)
  }

  /**
   * The sender's name is stored as the text Mongoose casts it to, for a new
   * sender or one without a name: a name the cast refuses (an array, a
   * plain object) records nothing, and one it accepts is stored trimmed.
   */
  lemma RecordedSenderName(us: Users, sender: string, senderName: Option<Json>, now: int)
    requires UsersValid(us) && Truthy(senderName)
    requires Trim(sender) !in us || !UserModel.TruthyText(us[Trim(sender)].displayName)
    ensures StringCast(senderName).Err? ==> Recorded(us, sender, senderName, now).None?
    ensures StringCast(senderName).Ok? ==>
      var s := StringCast(senderName).value.value;
      (Recorded(us, sender, senderName, now).Some? <==> IsWhatsAppId(Trim(sender)) && |Trim(s)| <= MaxDisplayName)
      && (Recorded(us, sender, senderName, now).Some? ==> Recorded(us, sender, senderName, now).value.1.displayName == Some(Trim(s)))
  {
    FindOrCreateNames(us, sender, senderName, now);
  }

  /**
   * A delivery whose contact name the cast refuses, from a sender who is new
   * or has no name, fails in `findOrCreate` and leaves both collections as
   * they were.
   */
  lemma UncastableSenderNameChangesNothing(ls: Listings, us: Users, payload: Json, cur: Currency, fetch: nat -> Fetch, now: int)
    requires UsersValid(us)
    requires var m := FirstMessage(ChangeValue(payload));
      m.Some? && Sender(m.value).Some?
      && (Trim(Sender(m.value).value) !in us || !UserModel.TruthyText(us[Trim(Sender(m.value).value)].displayName))
    requires Truthy(SenderName(ChangeValue(payload))) && StringCast(SenderName(ChangeValue(payload))).Err?
    ensures ProcessSpec(ls, us, payload, cur, fetch, now) == (ls, us)
  {
    var value := ChangeValue(payload);
    RecordedSenderName(us, Sender(FirstMessage(value).value).value, SenderName(value), now);
  }

  /** A contact named `true` (a boolean) is stored as a new user named "true". */
  lemma BooleanSenderNameStored(us: Users, sender: string, now: int)
    requires UsersValid(us) && Trim(sender) !in us && IsWhatsAppId(Trim(sender))
    ensures Recorded(us, sender, Some(JBool(true)), now).Some?
    ensures Recorded(us, sender, Some(JBool(true)), now).value.1.displayName == Some("true")
  {
    RecordedSenderName(us, sender, Some(JBool(true)), now);
    assert Trim("true") == "true";
  }

  /**
   * The worker. `currency` is the currency marker of its price pattern:
   * `MisEncodedRupee` for the service as written, `Rupee` for the pattern
   * as intended (see the findings).
   */
  class MessageParser {
    var isRunning: bool
    const currency: Currency

    constructor(currency: Currency)
      ensures !isRunning && this.currency == currency
    {
      isRunning := false;
      this.currency := currency;
    }

    /** `start`: refuses when already running; otherwise sets the flag and enters the loop (see `RunOnce`). */
    method Start() returns (started: bool)
      modifies this
      ensures started == !old(isRunning) && isRunning
    {
      if isRunning {
        return false;
      }
      isRunning := true;
      started := true;
    }

    /** `stop`: the loop ends after its current iteration. */
    method Stop()
      modifies this
      ensures !isRunning
    {
      isRunning := false;
    }

    /** `handleReply(message, user)` for the user just recorded. */
    method HandleReply(db: Database, message: Json, user: User, now: int)
      requires db.Valid() && user.whatsappId in db.users && ValidUser(user)
      requires Truthy(ContextId(message))
      modifies db
      ensures db.Valid()
      ensures (db.listings, db.users) == ReplySpec(old(db.listings), old(db.users), message, user, now)
    {
      if ReplyText(message) != Ok(Some("sold")) {
        return;
      }
      var query := MessageIdQuery(ContextId(message).value);
      if !query.ById? {
        return;
      }
      var key := query.key;
      var generator := db.FindByMessageId(key);
      if generator.Some? && generator.value.sellerId == user.whatsappId {
        var _ := db.MarkAsSold(key, None, now);
        var saved := db.SaveUser(user.(successfulSales := user.successfulSales + 1));
      }
    }

    /** `processMessage(payload)`. */
    method ProcessMessage(db: Database, payload: Json, fetch: nat -> Fetch, now: int)
      requires db.Valid()
      modifies db
      ensures db.Valid()
      ensures (db.listings, db.users) == ProcessSpec(old(db.listings), old(db.users), payload, currency, fetch, now)
    {
      var value := ChangeValue(payload);
      var message := FirstMessage(value);
      if message.None? {
        return;
      }
      var from := Sender(message.value);
      if from.None? {
        return;
      }
      FindOrCreateCharacterised(db.users, from.value, SenderName(value), now);
      var found := db.FindOrCreate(from.value, SenderName(value), now);
      if found.Err? {
        return;
      }
      var touched := db.UpdateActivity(found.value, now);
      var user := touched.value;
      if Truthy(ContextId(message.value)) {
        HandleReply(db, message.value, user, now);
        return;
      }
      if Get(Some(message.value), "type") == Some(JStr("text")) {
        var draft := BuildDraft(message.value, user.whatsappId, fetch, now);
        SaveListing(db, user, draft);
      }
    }

    /** The text branch up to the document: parse the body and collect the media. */
    method BuildDraft(message: Json, sellerId: string, fetch: nat -> Fetch, now: int) returns (draft: Option<Listing>)
      ensures draft == TextDraft(message, currency, sellerId, fetch, now)
    {
      var text := Get(Some(message), "text");
      if Nullish(text) {
        return None;
      }
      var messageText := BodyText(text);
      var parseResult := ParseGeneratorListing(messageText, currency, true);
      var images: seq<Image> := [];
      var items := MediaItems(message);
      if items != [] {
        images := ProcessMedia(items, fetch);
      }
      draft := Draft(parseResult, images, sellerId, message, messageText, now);
    }

    /** `generator.save()`, then the seller's listing count and its save. */
    method SaveListing(db: Database, user: User, draft: Option<Listing>)
      requires db.Valid() && user.whatsappId in db.users && ValidUser(user)
      modifies db
      ensures db.Valid()
      ensures (db.listings, db.users) == SaveDraft(old(db.listings), old(db.users), user, draft)
    {
      if draft.None? {
        return;
      }
      ghost var us0 := db.users;
      var saved := db.InsertListing(draft.value);
      if saved.Err? {
        return;
      }
      var counted := CountedUser(user);
      assert ValidUser(counted);
      var _ := db.SaveUser(counted);
      assert db.users == Counted(us0, user);
    }

    /**
     * One turn of the `start` loop: take the oldest queued delivery and
     * process it; nothing happens when the queue stays empty until the
     * timeout or cannot be reached.
     */
    method RunOnce(q: MessageQueue, db: Database, fetch: nat -> Fetch, now: int) returns (processed: Option<Json>)
      requires isRunning && db.Valid()
      modifies q, db
      ensures db.Valid() && q.up == old(q.up)
      ensures !q.up || old(q.items) == [] ==>
        processed.None? && q.items == old(q.items) && db.listings == old(db.listings) && db.users == old(db.users)
      ensures q.up && old(q.items) != [] ==>
        processed == Some(Drained(old(q.items))[0]) && Drained(old(q.items)) == [processed.value] + Drained(q.items)
      ensures processed.Some? && Truthy(processed) ==>
        (db.listings, db.users) == ProcessSpec(old(db.listings), old(db.users), processed.value, currency, fetch, now)
      ensures processed.Some? && !Truthy(processed) ==> db.listings == old(db.listings) && db.users == old(db.users)
    {
      var got := q.GetFromQueue();
      if got.Err? || got.value.None? {
        return None;
      }
      processed := got.value;
      if Truthy(processed) {
        ProcessMessage(db, processed.value, fetch, now);
      }
    }
  }


  // ---------------------------------------------------------------- properties

  /** A delivery without messages changes nothing. */
  lemma NoMessagesNoChange(ls: Listings, us: Users, payload: Json, cur: Currency, fetch: nat -> Fetch, now: int)
    requires FirstMessage(ChangeValue(payload)).None?
    ensures ProcessSpec(ls, us, payload, cur, fetch, now) == (ls, us)
  {
  }

  /**
   * A reply never creates a listing: the listings keep their keys, and at
   * most the replied-to listing changes, to its sold form.
   */
  lemma ReplyCreatesNoListing(ls: Listings, us: Users, message: Json, cur: Currency, u: User, fetch: nat -> Fetch, now: int)
    requires Truthy(ContextId(message))
    ensures var ls1 := Branch(ls, us, message, cur, u, fetch, now).0;
      ls1.Keys == ls.Keys && forall k :: k in ls && ls1[k] != ls[k] ==> ls1[k] == MarkedSold(ls[k], None, now)
  {
  }

  /**
   * The save step: the listing is stored, with its tags, under its message
   * identifier only when that identifier is new and the document passes
   * validation, and only then does the seller's listing count rise by
   * exactly one; otherwise nothing changes.
   */
  lemma SaveDraftOutcome(ls: Listings, us: Users, u: User, draft: Option<Listing>)
    requires ListingsValid(ls)
    ensures SaveDraft(ls, us, u, draft).0 == ls ==> SaveDraft(ls, us, u, draft).1 == us
    ensures SaveDraft(ls, us, u, draft).0 != ls ==>
      draft.Some? && ValidForSave(draft.value) && draft.value.audit.messageId !in ls
      && SaveDraft(ls, us, u, draft).0
        == ls[draft.value.audit.messageId := draft.value.(tags := TagsOf(draft.value.brand, draft.value.model, draft.value.locationText))]
      && SaveDraft(ls, us, u, draft).1 == Counted(us, u)
  {
    if draft.Some? {
      var d := draft.value;
      assert draft == Some(d);
      if InsertResult(ls, d).Ok? {
        SaveDraftStored(ls, us, u, d);
        assert d.audit.messageId in SaveDraft(ls, us, u, draft).0;
      } else {
        SaveDraftRefused(ls, us, u, d);
      }
    }
  }

  /** A listing the store accepts is stored with its tags, and its seller counted. */
  lemma SaveDraftStored(ls: Listings, us: Users, u: User, d: Listing)
    requires ListingsValid(ls) && InsertResult(ls, d).Ok?
    ensures ValidForSave(d) && d.audit.messageId !in ls
    ensures SaveDraft(ls, us, u, Some(d))
      == (ls[d.audit.messageId := d.(tags := TagsOf(d.brand, d.model, d.locationText))], Counted(us, u))
  {
    InsertCharacterised(ls, d);
  }

  /** A listing the store refuses changes nothing. */
  lemma SaveDraftRefused(ls: Listings, us: Users, u: User, d: Listing)
    requires InsertResult(ls, d).Err?
    ensures SaveDraft(ls, us, u, Some(d)) == (ls, us)
  {
  }

  /** A document is inserted as the store inserts it. */
  lemma SaveDraftListings(ls: Listings, us: Users, u: User, d: Listing)
    ensures SaveDraft(ls, us, u, Some(d)).0 == AfterInsert(ls, d)
  {
  }

  /** The seller is counted exactly when the insert succeeds. */
  lemma SaveDraftUsers(ls: Listings, us: Users, u: User, d: Listing)
    ensures SaveDraft(ls, us, u, Some(d)).1 == if InsertResult(ls, d).Ok? then Counted(us, u) else us
  {
  }

  /**
   * The document a text message asks to save carries the message
   * identifier, the parse errors, the seller, and the status
   * `pending_review` exactly when the parse succeeded (`failed_parsing`
   * otherwise).
   */
  lemma TextDraftFacts(message: Json, cur: Currency, sellerId: string, fetch: nat -> Fetch, now: int)
    ensures var draft := TextDraft(message, cur, sellerId, fetch, now);
      var pr := ParseSpec(BodyText(Get(Some(message), "text")), cur, true);
      draft.Some? ==>
        (Some(draft.value.audit.messageId) == MessageId(message)
        && draft.value.sellerId == sellerId
        && (draft.value.status == PendingReview <==> pr.success)
        && (draft.value.status == FailedParsing <==> !pr.success)
        && draft.value.audit.parsingErrors == ErrorTexts(pr.errors))
  {
  }

  /**
   * The worker as written (currency marker `MisEncodedRupee`) saves a text
   * message whose body holds neither 'â' nor 'Â' as `failed_parsing`, with
   * the price reported missing, however the price line is written.
   */
  lemma AsWrittenWorkerFailsPlainText(message: Json, sellerId: string, fetch: nat -> Fetch, now: int)
    requires var b := BodyText(Get(Some(message), "text"));
      b.Some? ==> forall i :: 0 <= i < |b.value| ==> b.value[i] != '\U{00E2}' && b.value[i] != '\U{00C2}'
    ensures var draft := TextDraft(message, MisEncodedRupee, sellerId, fetch, now);
      draft.Some? ==>
        draft.value.status == FailedParsing
        && (BodyText(Get(Some(message), "text")).Some? ==>
              ErrorText(MissingField(Price)) in draft.value.audit.parsingErrors)
  {
    var b := BodyText(Get(Some(message), "text"));
    var pr := ParseSpec(b, MisEncodedRupee, true);
    TextDraftFacts(message, MisEncodedRupee, sellerId, fetch, now);
    if b.Some? {
      AsWrittenRejectsOrdinaryText(b.value);
      assert MissingField(Price) in pr.errors;
      var i :| 0 <= i < |pr.errors| && pr.errors[i] == MissingField(Price);
      assert ErrorTexts(pr.errors)[i] == ErrorText(MissingField(Price));
    }
  }

  /**
   * The worker's reply handling has no status check: a "sold" reply to a
   * listing already sold counts another successful sale, where the SOLD
   * workflow answers `already_sold`.
   */
  lemma ReplyToSoldListingCountsAgain(ls: Listings, us: Users, message: Json, u: User, now: int, key: string)
    requires ReplyText(message) == Ok(Some("sold")) && Truthy(ContextId(message))
    requires MessageIdQuery(ContextId(message).value) == ById(key)
    requires key in ls && ls[key].sellerId == u.whatsappId && ls[key].status == Sold
    ensures ReplySpec(ls, us, message, u, now).1[u.whatsappId].successfulSales == u.successfulSales + 1
    ensures SoldDecision(ls, message, u.whatsappId) == AlreadySold
  {
  }

  /** Saving the same document again, for whichever user, is refused by the unique index. */
  lemma SaveDraftTwice(ls: Listings, us: Users, u: User, us2: Users, u2: User, draft: Option<Listing>)
    requires ListingsValid(ls)
    ensures var ls1 := SaveDraft(ls, us, u, draft).0;
      SaveDraft(ls1, us2, u2, draft).0 == ls1
  {
    if draft.Some? {
      InsertCharacterised(ls, draft.value);
      InsertCharacterised(AfterInsert(ls, draft.value), draft.value);
    }
  }

  /** A text message whose id is the boolean `true` is saved, if at all, under the message id "true". */
  lemma BooleanMessageIdSaved(message: Json, cur: Currency, sellerId: string, fetch: nat -> Fetch, now: int)
    requires Get(Some(message), "id") == Some(JBool(true))
    ensures MessageId(message) == Some("true")
    ensures TextDraft(message, cur, sellerId, fetch, now).Some? ==>
      TextDraft(message, cur, sellerId, fetch, now).value.audit.messageId == "true"
  {
  }

  /** A message id that is an array, or an object without `_id`, fails the cast and no listing is built. */
  lemma UncastableMessageIdNoDraft(message: Json, cur: Currency, sellerId: string, fetch: nat -> Fetch, now: int)
    requires var id := Get(Some(message), "id");
      id.Some? && (id.value.JArr? || (id.value.JObj? && "_id" !in id.value.fields))
    ensures MessageId(message).None?
    ensures TextDraft(message, cur, sellerId, fetch, now).None?
  {
  }

  /** The draft of a text message depends on the seller and the time only through those fields. */
  lemma TextDraftKey(message: Json, cur: Currency, sellerId: string, sellerId2: string, fetch: nat -> Fetch, now: int, later: int)
    ensures TextDraft(message, cur, sellerId, fetch, now).Some? <==> TextDraft(message, cur, sellerId2, fetch, later).Some?
    ensures TextDraft(message, cur, sellerId, fetch, now).Some? ==>
      TextDraft(message, cur, sellerId, fetch, now).value.audit.messageId
        == TextDraft(message, cur, sellerId2, fetch, later).value.audit.messageId
  {
  }

  /** A document whose message identifier is already stored changes nothing. */
  lemma SaveDraftExisting(ls: Listings, us: Users, u: User, draft: Option<Listing>)
    requires ListingsValid(ls)
    requires draft.Some? ==> draft.value.audit.messageId in ls
    ensures SaveDraft(ls, us, u, draft) == (ls, us)
  {
    if draft.Some? {
      InsertCharacterised(ls, draft.value);
    }
  }

  /** For a text message that is not a reply, a delivery is the save step after recording the sender. */
  lemma ProcessText(ls: Listings, us: Users, payload: Json, cur: Currency, fetch: nat -> Fetch, now: int)
    requires var m := FirstMessage(ChangeValue(payload));
      m.Some? && !Truthy(ContextId(m.value)) && Get(Some(m.value), "type") == Some(JStr("text"))
    ensures var m := FirstMessage(ChangeValue(payload)).value;
      var rec := if Sender(m).Some? then Recorded(us, Sender(m).value, SenderName(ChangeValue(payload)), now) else None;
      ProcessSpec(ls, us, payload, cur, fetch, now)
        == if rec.None? then (ls, us) else SaveDraft(ls, rec.value.0, rec.value.1, TextDraft(m, cur, rec.value.1.whatsappId, fetch, now))
  {
  }

  /**
   * Delivering the same text message again, after its first delivery
   * stored a listing, stores nothing more: the second save hits the unique
   * index.
   */
  lemma RedeliveryStoresOnce(ls: Listings, us: Users, payload: Json, cur: Currency, fetch: nat -> Fetch, now: int, later: int)
    requires ListingsValid(ls)
    requires var m := FirstMessage(ChangeValue(payload));
      m.Some? && !Truthy(ContextId(m.value)) && Get(Some(m.value), "type") == Some(JStr("text"))
    requires ProcessSpec(ls, us, payload, cur, fetch, now).0 != ls
    ensures var (ls1, us1) := ProcessSpec(ls, us, payload, cur, fetch, now);
      ProcessSpec(ls1, us1, payload, cur, fetch, later).0 == ls1
  {
    var value := ChangeValue(payload);
    var m := FirstMessage(value).value;
    ProcessText(ls, us, payload, cur, fetch, now);
    var sender := Sender(m).value;
    var rec := Recorded(us, sender, SenderName(value), now).value;
    var u := rec.1;
    var draft := TextDraft(m, cur, u.whatsappId, fetch, now);
    var (ls1, us1) := SaveDraft(ls, rec.0, u, draft);
    SaveDraftOutcome(ls, rec.0, u, draft);
    InsertCharacterised(ls, draft.value);
    ProcessText(ls1, us1, payload, cur, fetch, later);
    var rec2 := Recorded(us1, sender, SenderName(value), later);
    if rec2.Some? {
      var u2 := rec2.value.1;
      var draft2 := TextDraft(m, cur, u2.whatsappId, fetch, later);
      TextDraftKey(m, cur, u.whatsappId, u2.whatsappId, fetch, now, later);
      SaveDraftExisting(ls1, rec2.value.0, u2, draft2);
    }
  }

  /**
   * Once the sender is recorded, a text message that is not a reply adds
   * at most one listing: under the message's identifier, new before, owned
   * by the sender, `pending_review` exactly when the parse succeeded and
   * carrying its errors; the sender's listing count rises by one exactly
   * when that listing is stored.
   */
  lemma TextMessageOutcome(ls: Listings, us: Users, m: Json, cur: Currency, u: User, fetch: nat -> Fetch, now: int)
    requires ListingsValid(ls)
    requires !Truthy(ContextId(m)) && Get(Some(m), "type") == Some(JStr("text"))
    ensures var pr := ParseSpec(BodyText(Get(Some(m), "text")), cur, true);
      var (ls1, us1) := Branch(ls, us, m, cur, u, fetch, now);
      (ls1 == ls ==> us1 == us)
      && (ls1 != ls ==>
        MessageId(m).Some? && MessageId(m).value !in ls && ls1.Keys == ls.Keys + {MessageId(m).value}
        && ls1[MessageId(m).value].sellerId == u.whatsappId
        && (ls1[MessageId(m).value].status == PendingReview <==> pr.success)
        && ls1[MessageId(m).value].audit.parsingErrors == ErrorTexts(pr.errors)
        && us1 == Counted(us, u))
  {
    var draft := TextDraft(m, cur, u.whatsappId, fetch, now);
    assert Branch(ls, us, m, cur, u, fetch, now) == SaveDraft(ls, us, u, draft);
    SaveDraftOutcome(ls, us, u, draft);
    TextDraftFacts(m, cur, u.whatsappId, fetch, now);
    var ls1 := SaveDraft(ls, us, u, draft).0;
    if ls1 != ls {
      var d := draft.value;
      var stored := d.(tags := TagsOf(d.brand, d.model, d.locationText));
      assert ls1 == ls[d.audit.messageId := stored];
      assert MessageId(m) == Some(d.audit.messageId);
      assert ls1[d.audit.messageId] == stored;
    }
  }
}
