/**
 * The administrator's "add a listing by hand" endpoint against the
 * database, and what a request leaves behind: the seller step touches only
 * the seller, a refusal stores nothing, and a created listing is for sale
 * under a fresh message id with its seller counted.
 */
module ManualListing {
  import opened Wrappers
  import opened JsText
  import opened Json
  import opened GeneratorModel
  import opened UserModel
  import opened Store
  import opened ManualRequest


  lemma SellerStepStoresSeller(us: Users, f: Fields, now: int)
    requires UsersValid(us) && Checked(f)
    ensures var r := SellerStep(us, f, now); var key := SellerKey(f);
      r.Some? ==> (UsersValid(r.value.1) && key in r.value.1 && r.value.1[key] == r.value.0
        && r.value.0.whatsappId == key)
  {
    var key := SellerKey(f);
    if key !in us {
      var u := NewSeller(f, now);
      if u.Some? {
        StoreUser(us, u.value);
      }
    } else {
      assert us[key].whatsappId == key;
      if Truthy(f.sellerDisplayName) && !UserModel.TruthyText(us[key].displayName) {
        var u := Backfilled(us[key], f);
        if u.Some? {
          StoreUser(us, u.value);
        }
      }
    }
  }

  /** Storing a valid user under its own id keeps the users valid. */
  lemma StoreUser(us: Users, u: User)
    requires UsersValid(us) && ValidUser(u)
    ensures UsersValid(us[u.whatsappId := u]) && us[u.whatsappId := u][u.whatsappId] == u
  {
  }

  /** Only the seller's own record changes: the other users are untouched. */
  lemma SellerStepKeepsOthers(us: Users, f: Fields, now: int)
    requires UsersValid(us) && Checked(f)
    ensures var r := SellerStep(us, f, now); var key := SellerKey(f);
      r.Some? ==> (r.value.1.Keys == us.Keys + {key} && forall k :: k in us && k != key ==> r.value.1[k] == us[k])
  {
    var key := SellerKey(f);
    var r := SellerStep(us, f, now);
    SellerStepShape(us, f, now);
    if r.Some? {
      UpdateKeepsOthers(us, key, r.value.0, r.value.1);
    }
  }

  /** The seller step either leaves the users as they are, the seller among them, or stores the seller. */
  lemma SellerStepShape(us: Users, f: Fields, now: int)
    requires Checked(f)
    ensures var r := SellerStep(us, f, now); var key := SellerKey(f);
      r.Some? ==> ((r.value.1 == us && key in us) || r.value.1 == us[key := r.value.0])
  {
    var key := SellerKey(f);
    if key !in us {
      assert NewSeller(f, now).Some? ==> SellerStep(us, f, now).value.1 == us[key := NewSeller(f, now).value];
    } else if Truthy(f.sellerDisplayName) && !UserModel.TruthyText(us[key].displayName) {
      assert Backfilled(us[key], f).Some? ==>
        SellerStep(us, f, now).value.1 == us[key := Backfilled(us[key], f).value];
    }
  }

  lemma UpdateKeepsOthers(us: Users, key: string, u: User, after: Users)
    requires (after == us && key in us) || after == us[key := u]
    ensures after.Keys == us.Keys + {key} && forall k :: k in us && k != key ==> after[k] == us[k]
  {
  }

  /** The seller's listing count is the stored one, or 0 for a new seller. */
  lemma SellerStepKeepsCount(us: Users, f: Fields, now: int)
    requires Checked(f)
    ensures var r := SellerStep(us, f, now); var key := SellerKey(f);
      r.Some? ==> r.value.0.totalListings == (if key in us then us[key].totalListings else 0)
  {
    var key := SellerKey(f);
    if key in us && Truthy(f.sellerDisplayName) && !UserModel.TruthyText(us[key].displayName) {
      var u := Backfilled(us[key], f);
      assert u.Some? ==> u.value.totalListings == us[key].totalListings;
    }
  }

  /**
   * A new seller without a given name is named `Seller ` and the last four
   * digits of a textual id, and is always accepted.
   */
  lemma NewSellerDefaultName(f: Fields, now: int)
    requires Checked(f) && !Truthy(f.sellerDisplayName) && f.sellerId.value.JStr?
    ensures NewSeller(f, now).Some?
    ensures NewSeller(f, now).value.displayName == Some(Trim("Seller " + SliceLast(SellerKey(f), 4)))
  {
    var name := "Seller " + SliceLast(SellerKey(f), 4);
    assert NewSellerName(f) == Some(name);
    assert UserModel.TruthyText(Some(name));
    assert NewSeller(f, now).Some?;
    assert NewSeller(f, now) == Some(NewUser(SellerKey(f), Some(name), Seller, now));
  }

  /**
   * For a new seller, or a stored one without a name, a truthy name sent is
   * stored as the trimmed text Mongoose casts it to; a name the cast
   * refuses (an array, a plain object) makes the seller step throw.
   */
  lemma SellerNameCast(us: Users, f: Fields, now: int)
    requires UsersValid(us) && Checked(f) && Truthy(f.sellerDisplayName)
    requires SellerKey(f) !in us || !UserModel.TruthyText(us[SellerKey(f)].displayName)
    ensures StringCast(f.sellerDisplayName).Err? ==> SellerStep(us, f, now).None?
    ensures StringCast(f.sellerDisplayName).Ok? ==>
      var s := StringCast(f.sellerDisplayName).value.value;
      (SellerStep(us, f, now).Some? <==> |Trim(s)| <= MaxDisplayName)
      && (SellerStep(us, f, now).Some? ==> SellerStep(us, f, now).value.0.displayName == Some(Trim(s)))
  {
    var key := SellerKey(f);
    if key in us {
      assert us[key].whatsappId == key;
    }
  }

  /** A seller name sent as the boolean `true` is saved as "true". */
  lemma BooleanSellerNameSaved(us: Users, f: Fields, now: int)
    requires UsersValid(us) && Checked(f) && f.sellerDisplayName == Some(JBool(true))
    requires SellerKey(f) !in us || !UserModel.TruthyText(us[SellerKey(f)].displayName)
    ensures SellerStep(us, f, now).Some? && SellerStep(us, f, now).value.0.displayName == Some("true")
  {
    SellerNameCast(us, f, now);
    assert Trim("true") == "true";
  }

  /**
   * A request whose seller name the cast refuses, for a new seller or one
   * without a name, is answered with a server error and changes nothing.
   */
  lemma UncastableSellerNameFails(ls: Listings, us: Users, isAdmin: bool, body: Option<Json>, now: nat, random: string)
    requires UsersValid(us) && Precheck(isAdmin, body).Ok?
    requires var f := Precheck(isAdmin, body).value;
      Truthy(f.sellerDisplayName) && StringCast(f.sellerDisplayName).Err?
      && (SellerKey(f) !in us || !UserModel.TruthyText(us[SellerKey(f)].displayName))
    ensures Outcome(ls, us, isAdmin, body, now, random) == (ServerError, ls, us)
  {
    SellerNameCast(us, Precheck(isAdmin, body).value, now);
  }

  /** A stored seller who has a name, or for whom no name is given, is used as stored. */
  lemma SellerStepKeepsNamed(us: Users, f: Fields, now: int)
    requires Checked(f) && SellerKey(f) in us
    requires !Truthy(f.sellerDisplayName) || UserModel.TruthyText(us[SellerKey(f)].displayName)
    ensures SellerStep(us, f, now) == Some((us[SellerKey(f)], us))
  {
  }

  lemma ListingStepStores(ls: Listings, us: Users, seller: User, f: Fields, now: nat, random: string)
    requires ListingsValid(ls) && UsersValid(us) && Checked(f)
    requires seller.whatsappId in us && us[seller.whatsappId] == seller
    ensures var o := ListingStep(ls, us, seller, f, now, random);
      ListingsValid(o.1) && UsersValid(o.2)
      && (o.0.Refused? ==> o.0 == ServerError && o.1 == ls && o.2 == us)
      && (o.0.Created? ==>
        o.0.listing.audit.messageId !in ls && o.1 == ls[o.0.listing.audit.messageId := o.0.listing]
        && o.0.seller == seller.(totalListings := seller.totalListings + 1)
        && o.2 == us[seller.whatsappId := o.0.seller])
  {
    var images := NormaliseImages(f.images, now);
    if images.Some? && TextFields(f) {
      PublishStores(ls, us, seller, ManualDocument(f, images.value, seller.whatsappId, now, random));
    }
  }

  /** Publishing keeps both collections valid and stores the document and the counted seller, or nothing. */
  lemma PublishStores(ls: Listings, us: Users, seller: User, doc: Listing)
    requires ListingsValid(ls) && UsersValid(us)
    requires seller.whatsappId in us && us[seller.whatsappId] == seller
    ensures var o := Publish(ls, us, seller, doc);
      ListingsValid(o.1) && UsersValid(o.2)
      && (o.0.Refused? ==> o.0 == ServerError && o.1 == ls && o.2 == us)
      && (o.0.Created? ==>
        o.0.listing.audit.messageId !in ls && o.1 == ls[o.0.listing.audit.messageId := o.0.listing]
        && o.0.listing == doc.(tags := o.0.listing.tags)
        && o.0.seller == seller.(totalListings := seller.totalListings + 1)
        && o.2 == us[seller.whatsappId := o.0.seller])
  {
    InsertCharacterised(ls, doc);
    StoreUser(us, seller.(totalListings := seller.totalListings + 1));
  }

  /**
   * A created listing is for sale, carries a `manual_` message id and no
   * parsing errors, has trimmed brand and model and names the seller.
   */
  lemma ListingStepCreated(ls: Listings, us: Users, seller: User, f: Fields, now: nat, random: string)
    requires Checked(f)
    ensures var o := ListingStep(ls, us, seller, f, now, random);
      o.0.Created? ==>
        (var l := o.0.listing;
         l.status == ForSale && l.audit.parsingErrors == [] && "manual_" <= l.audit.messageId
         && l.brand == Trim(l.brand) && l.model == Trim(l.model) && l.sellerId == seller.whatsappId)
  {
    var images := NormaliseImages(f.images, now);
    if images.Some? && TextFields(f) {
      TrimIdempotent(f.brand.value.s);
      TrimIdempotent(f.model.value.s);
    }
  }

  /**
   * What a request leaves behind: the collections stay valid; a refusal by
   * the checks changes nothing and no failure stores a listing.
   */
  lemma OutcomeKeepsStores(ls: Listings, us: Users, isAdmin: bool, body: Option<Json>, now: nat, random: string)
    requires ListingsValid(ls) && UsersValid(us)
    ensures var o := Outcome(ls, us, isAdmin, body, now, random);
      ListingsValid(o.1) && UsersValid(o.2)
      && (o.0.Refused? ==> o.1 == ls)
      && (o.0.Refused? && o.0.status != 500 ==> o.2 == us)
  {
    var pre := Precheck(isAdmin, body);
    if pre.Ok? {
      var f := pre.value;
      SellerStepStoresSeller(us, f, now);
      var step := SellerStep(us, f, now);
      if step.Some? {
        assert Outcome(ls, us, isAdmin, body, now, random) == ListingStep(ls, step.value.1, step.value.0, f, now, random);
        ListingStepStores(ls, step.value.1, step.value.0, f, now, random);
      }
    }
  }

  /**
   * A created listing is stored under a fresh `manual_` message id, for
   * sale, with no parsing errors and trimmed texts.
   */
  lemma OutcomeCreatedListing(ls: Listings, us: Users, isAdmin: bool, body: Option<Json>, now: nat, random: string)
    requires ListingsValid(ls) && UsersValid(us)
    ensures var o := Outcome(ls, us, isAdmin, body, now, random);
      o.0.Created? ==>
        (var l := o.0.listing;
         l.audit.messageId !in ls && o.1 == ls[l.audit.messageId := l]
         && l.status == ForSale && l.audit.parsingErrors == [] && "manual_" <= l.audit.messageId
         && l.brand == Trim(l.brand) && l.model == Trim(l.model))
  {
    var pre := Precheck(isAdmin, body);
    if pre.Ok? {
      var f := pre.value;
      SellerStepStoresSeller(us, f, now);
      var step := SellerStep(us, f, now);
      if step.Some? {
        assert Outcome(ls, us, isAdmin, body, now, random) == ListingStep(ls, step.value.1, step.value.0, f, now, random);
        ListingStepStores(ls, step.value.1, step.value.0, f, now, random);
        ListingStepCreated(ls, step.value.1, step.value.0, f, now, random);
      }
    }
  }

  /**
   * The seller of a created listing is stored with a count one more than
   * before the request (a new seller starts from 0).
   */
  lemma OutcomeCreatedSeller(ls: Listings, us: Users, isAdmin: bool, body: Option<Json>, now: nat, random: string)
    requires ListingsValid(ls) && UsersValid(us)
    ensures var o := Outcome(ls, us, isAdmin, body, now, random);
      o.0.Created? ==>
        (var key := o.0.listing.sellerId;
         key in o.2 && o.2[key] == o.0.seller
         && o.0.seller.totalListings == (if key in us then us[key].totalListings else 0) + 1)
  {
    var pre := Precheck(isAdmin, body);
    if pre.Ok? {
      var f := pre.value;
      SellerStepStoresSeller(us, f, now);
      var step := SellerStep(us, f, now);
      if step.Some? {
        SellerStepKeepsCount(us, f, now);
        assert Outcome(ls, us, isAdmin, body, now, random) == ListingStep(ls, step.value.1, step.value.0, f, now, random);
        ListingStepStores(ls, step.value.1, step.value.0, f, now, random);
        ListingStepCreated(ls, step.value.1, step.value.0, f, now, random);
      }
    }
  }

  /**
   * `POST` on the manual endpoint, against the database. The clock and the
   * random suffix of the message id are given.
   */
  method CreateManualListing(db: Database, isAdmin: bool, body: Option<Json>, now: nat, random: string)
    returns (reply: Reply)
    requires db.Valid()
    modifies db
    ensures db.Valid()
    ensures (reply, db.listings, db.users) == Outcome(old(db.listings), old(db.users), isAdmin, body, now, random)
  {
    var pre := Precheck(isAdmin, body);
    if pre.Err? {
      return pre.error;
    }
    var seller := SaveSeller(db, pre.value, now);
    if seller.None? {
      return ServerError;
    }
    reply := SaveManualListing(db, seller.value, pre.value, now, random);
  }

  /** The seller step against the database: the seller as saved, or `None` with the users untouched. */
  method SaveSeller(db: Database, f: Fields, now: int) returns (seller: Option<User>)
    requires db.Valid() && Checked(f)
    modifies db
    ensures db.Valid() && db.listings == old(db.listings)
    ensures var step := SellerStep(old(db.users), f, now);
      if step.None? then seller.None? && db.users == old(db.users)
      else seller == Some(step.value.0) && db.users == step.value.1
  {
    var key := SellerKey(f);
    if key !in db.users {
      seller := CreateSeller(db, f, now);
    } else if Truthy(f.sellerDisplayName) && !UserModel.TruthyText(db.users[key].displayName) {
      seller := BackfillSeller(db, f);
    } else {
      seller := Some(db.users[key]);
    }
  }

  /** A new seller created for an id no user has. */
  method CreateSeller(db: Database, f: Fields, now: int) returns (seller: Option<User>)
    requires db.Valid() && Checked(f) && SellerKey(f) !in db.users
    modifies db
    ensures db.Valid() && db.listings == old(db.listings)
    ensures var u := NewSeller(f, now);
      if u.None? then seller.None? && db.users == old(db.users)
      else seller == u && db.users == old(db.users)[SellerKey(f) := u.value]
  {
    var name := NewSellerName(f);
    if name.None? {
      return None;
    }
    var created := db.CreateUser(NewUser(SellerKey(f), name, Seller, now));
    if created.Err? {
      return None;
    }
    return Some(created.value);
  }

  /** The stored seller given the name sent, when it has none. */
  method BackfillSeller(db: Database, f: Fields) returns (seller: Option<User>)
    requires db.Valid() && Checked(f) && SellerKey(f) in db.users
    modifies db
    ensures db.Valid() && db.listings == old(db.listings)
    ensures var u := Backfilled(old(db.users)[SellerKey(f)], f);
      if u.None? then seller.None? && db.users == old(db.users)
      else seller == u && db.users == old(db.users)[SellerKey(f) := u.value]
  {
    var stored := db.users[SellerKey(f)];
    var name := StringCast(f.sellerDisplayName);
    if name.Err? || name.value.None? {
      return None;
    }
    var saved := db.SaveUser(stored.(displayName := Some(Trim(name.value.value))));
    if saved.Err? {
      return None;
    }
    return Some(saved.value);
  }

  /**
   * The listing step against the database: the document inserted and the
   * seller saved with one more listing, whose save cannot fail.
   */
  method SaveManualListing(db: Database, seller: User, f: Fields, now: nat, random: string) returns (reply: Reply)
    requires db.Valid() && Checked(f) && seller.whatsappId in db.users && db.users[seller.whatsappId] == seller
    modifies db
    ensures db.Valid()
    ensures (reply, db.listings, db.users) == ListingStep(old(db.listings), old(db.users), seller, f, now, random)
  {
    var images := NormaliseImages(f.images, now);
    if images.None? || !TextFields(f) {
      return ServerError;
    }
    reply := PublishListing(db, seller, ManualDocument(f, images.value, seller.whatsappId, now, random));
  }

  /** Inserting the document, then counting it for the seller, whose save cannot fail. */
  method PublishListing(db: Database, seller: User, doc: Listing) returns (reply: Reply)
    requires db.Valid() && seller.whatsappId in db.users && db.users[seller.whatsappId] == seller
    modifies db
    ensures db.Valid()
    ensures (reply, db.listings, db.users) == Publish(old(db.listings), old(db.users), seller, doc)
  {
    PublishStores(db.listings, db.users, seller, doc);
    ghost var expected := Publish(db.listings, db.users, seller, doc);
    var inserted := db.InsertListing(doc);
    if inserted.Err? {
      return ServerError;
    }
    var counted := seller.(totalListings := seller.totalListings + 1);
    assert ValidUser(counted) && db.users == old(db.users);
    var saved := db.SaveUser(counted);
    assert saved.Ok?;
    reply := Created(inserted.value, counted);
    assert (reply, db.listings, db.users) == expected;
  }
}
