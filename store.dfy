/**
 * The two collections the back end writes: listings, keyed by the unique
 * message identifier of their audit trail, and users, keyed by their unique
 * messaging identifier. A save runs the schema validators and the unique
 * index; the model keeps documents as values in maps.
 */
module Store {
  import opened Wrappers
  import opened JsText
  import opened GeneratorModel
  import opened UserModel
  import Json

  type Listings = map<string, Listing>
  type Users = map<string, User>

  /** Every stored listing sits under its own message identifier and passed the validators. */
  predicate ListingsValid(ls: Listings) {
    forall k :: k in ls ==> ls[k].audit.messageId == k && ValidForSave(ls[k])
  }

  /** Every stored user sits under its own identifier and passed the validators. */
  predicate UsersValid(us: Users) {
    forall k :: k in us ==> us[k].whatsappId == k && ValidUser(us[k])
  }

  datatype SaveError = ValidationFailed | DuplicateKey

  /**
   * What `findOne({'audit_trail.whatsapp_message_id': x})` looks for:
   * the listing stored under a text key; none, for `null`, since every
   * stored listing has an identifier; a query operator, for an object with
   * a key starting with `$` or for an array (which becomes `$in`); or a
   * cast error, which rejects the query.
   */
  datatype IdQuery = ById(key: string) | NoMatch | OperatorQuery | Uncastable

  /** A key that Mongoose reads as a query operator. */
  predicate IsOperator(k: string) {
    |k| > 0 && k[0] == '$'
  }

  /** An object with an operator key is run as a query, not cast. */
  predicate HasOperatorKey(fields: map<string, Json.Json>) {
    exists k {:trigger IsOperator(k)} :: k in fields && IsOperator(k)
  }

  /** How a query on the message identifier casts the value it is given. */
  function MessageIdQuery(x: Json.Json): (r: IdQuery)
    ensures r.OperatorQuery? <==> x.JArr? || (x.JObj? && HasOperatorKey(x.fields))
    ensures r == NoMatch <==> x.JNull?
    ensures !r.OperatorQuery? ==>
      (r.ById? <==> Json.StringCast(Some(x)).Ok? && Json.StringCast(Some(x)).value.Some?)
      && (r.ById? ==> Json.StringCast(Some(x)) == Ok(Some(r.key)))
    ensures x.JStr? ==> r == ById(x.s)
    ensures x.JBool? ==> r == ById(if x.b then "true" else "false")
    ensures x.JObj? && !HasOperatorKey(x.fields) && "_id" !in x.fields ==> r == Uncastable
  {
    if x.JArr? || (x.JObj? && HasOperatorKey(x.fields)) then OperatorQuery
    else
      match Json.StringCast(Some(x))
      case Ok(Some(key)) => ById(key)
      case Ok(None) => NoMatch
      case Err(_) => Uncastable
  }

  /**
   * Saving a new listing: the validators, the pre-save hook, then the
   * unique index on the message identifier.
   */
  function InsertResult(ls: Listings, l: Listing): Result<Listing, SaveError> {
    var doc := PreSave(None, l);
    if !ValidForSave(doc) then Err(ValidationFailed)
    else if doc.audit.messageId in ls then Err(DuplicateKey)
    else Ok(doc)
  }

  function AfterInsert(ls: Listings, l: Listing): Listings {
    var r := InsertResult(ls, l);
    if r.Ok? then ls[r.value.audit.messageId := r.value] else ls
  }

  /**
   * A save of a new listing stores it, with its tags, under its message
   * identifier and touches nothing else; a second listing with the same
   * message identifier is refused and leaves the collection as it was.
   */
  lemma InsertCharacterised(ls: Listings, l: Listing)
    requires ListingsValid(ls)
    ensures ListingsValid(AfterInsert(ls, l))
    ensures InsertResult(ls, l).Ok? <==> ValidForSave(l) && l.audit.messageId !in ls
    ensures InsertResult(ls, l).Ok? ==>
      AfterInsert(ls, l) == ls[l.audit.messageId := l.(tags := TagsOf(l.brand, l.model, l.locationText))]
    ensures InsertResult(ls, l).Err? ==> AfterInsert(ls, l) == ls
    ensures ValidForSave(l) && l.audit.messageId in ls ==> InsertResult(ls, l) == Err(DuplicateKey)
  {
    var doc := PreSave(None, l);
    assert ValidForSave(doc) <==> ValidForSave(l);
  }

  /** Delivering the same listing twice stores it once. */
  lemma InsertTwice(ls: Listings, l: Listing)
    requires ListingsValid(ls)
    ensures AfterInsert(AfterInsert(ls, l), l) == AfterInsert(ls, l)
  {
    InsertCharacterised(ls, l);
    InsertCharacterised(AfterInsert(ls, l), l);
  }

  /**
   * `findOrCreate`: the user under the trimmed identifier, whose display
   * name is filled in when it is falsy and a truthy name is given;
   * otherwise a new seller. The name is the JavaScript value passed in and
   * is cast to text where it is stored; a cast error, like a validator,
   * fails the save.
   */
  function FindOrCreateResult(us: Users, whatsappId: string, displayName: Option<Json.Json>, now: int)
    : Result<(Users, User), SaveError>
  {
    var key := Trim(whatsappId);
    var name := if Json.Truthy(displayName) then Json.StringCast(displayName) else Ok(None);
    if key !in us then
      if name.Err? then Err(ValidationFailed)
      else
        var u := NewUser(whatsappId, name.value, Seller, now);
        if ValidUser(u) then Ok((us[key := u], u)) else Err(ValidationFailed)
    else if Json.Truthy(displayName) && !TruthyText(us[key].displayName) then
      if name.Err? then Err(ValidationFailed)
      else
        var u := us[key].(displayName := Some(Trim(name.value.value)));
        if ValidUser(u) then Ok((us[key := u], u)) else Err(ValidationFailed)
    else Ok((us, us[key]))
  }

  /** Storing a valid user under its own identifier keeps the collection valid and touches no other user. */
  lemma StoreUserKeepsValid(us: Users, u: User)
    requires UsersValid(us) && ValidUser(u)
    ensures UsersValid(us[u.whatsappId := u])
    ensures us[u.whatsappId := u].Keys == us.Keys + {u.whatsappId}
    ensures forall k :: k in us && k != u.whatsappId ==> us[u.whatsappId := u][k] == us[k]
  {
  }

  /**
   * A successful `findOrCreate` returns the one record stored under the
   * trimmed identifier, keeps the collection valid, and changes no other
   * user; an identifier without the 10 to 15 digit format never gets a record.
   */
  lemma FindOrCreateCharacterised(us: Users, whatsappId: string, displayName: Option<Json.Json>, now: int)
    requires UsersValid(us)
    ensures var r := FindOrCreateResult(us, whatsappId, displayName, now);
      r.Ok? ==> (UsersValid(r.value.0) && r.value.0.Keys == us.Keys + {Trim(whatsappId)}
        && r.value.0[Trim(whatsappId)] == r.value.1
        && (forall k :: k in us && k != Trim(whatsappId) ==> r.value.0[k] == us[k]))
    ensures !IsWhatsAppId(Trim(whatsappId)) ==> FindOrCreateResult(us, whatsappId, displayName, now).Err?
  {
    var key := Trim(whatsappId);
    var name := if Json.Truthy(displayName) then Json.StringCast(displayName) else Ok(None);
    var r := FindOrCreateResult(us, whatsappId, displayName, now);
    if key !in us {
      if name.Err? {
        assert r.Err?;
      } else {
        var u := NewUser(whatsappId, name.value, Seller, now);
        assert u.whatsappId == key;
        if ValidUser(u) {
          assert r == Ok((us[key := u], u));
          StoreUserKeepsValid(us, u);
        } else {
          assert r.Err?;
        }
      }
    } else if Json.Truthy(displayName) && !TruthyText(us[key].displayName) {
      if name.Err? {
        assert r.Err?;
      } else {
        var u := us[key].(displayName := Some(Trim(name.value.value)));
        assert u.whatsappId == key;
        if ValidUser(u) {
          assert r == Ok((us[key := u], u));
          StoreUserKeepsValid(us, u);
        } else {
          assert r.Err?;
        }
      }
    } else {
      assert r == Ok((us, us[key]));
      assert us[key].whatsappId == key;
    }
  }

  /**
   * The name `findOrCreate` stores, for a new user or one without a name:
   * a truthy name the cast refuses (an array, a plain object) fails the
   * save; one it accepts is stored as the trimmed text it is cast to, so
   * `true` becomes "true".
   */
  lemma FindOrCreateNames(us: Users, whatsappId: string, displayName: Option<Json.Json>, now: int)
    requires UsersValid(us)
    requires Trim(whatsappId) !in us || !TruthyText(us[Trim(whatsappId)].displayName)
    requires Json.Truthy(displayName)
    ensures Json.StringCast(displayName).Err? ==> FindOrCreateResult(us, whatsappId, displayName, now) == Err(ValidationFailed)
    ensures Json.StringCast(displayName).Ok? ==>
      var s := Json.StringCast(displayName).value.value;
      var r := FindOrCreateResult(us, whatsappId, displayName, now);
      (r.Ok? <==> IsWhatsAppId(Trim(whatsappId)) && |Trim(s)| <= MaxDisplayName)
      && (r.Ok? ==> r.value.1.displayName == Some(Trim(s)))
  {
    var key := Trim(whatsappId);
    if key in us && Json.StringCast(displayName).Ok? {
      assert us[key].whatsappId == key;
    }
  }

  /** Asking again for the same user, at any later time, returns the same record and changes nothing. */
  lemma FindOrCreateIdempotent(us: Users, whatsappId: string, displayName: Option<Json.Json>, now: int, later: int)
    requires UsersValid(us)
    requires FindOrCreateResult(us, whatsappId, displayName, now).Ok?
    ensures var (us1, u) := FindOrCreateResult(us, whatsappId, displayName, now).value;
      FindOrCreateResult(us1, whatsappId, displayName, later) == Ok((us1, u))
  {
    var (us1, u) := FindOrCreateResult(us, whatsappId, displayName, now).value;
    var key := Trim(whatsappId);
    assert key in us1 && us1[key] == u;
    if Json.Truthy(displayName) && !TruthyText(u.displayName) {
      assert us1[key := u] == us1;
    }
  }

  class Database {
    var listings: Listings
    var users: Users

    ghost predicate Valid()
      reads this
    {
      ListingsValid(listings) && UsersValid(users)
    }

    constructor()
      ensures Valid() && listings == map[] && users == map[]
    {
      listings := map[];
      users := map[];
    }

    /** `findByMessageId`: the listing whose audit trail carries the identifier, if any. */
    method FindByMessageId(messageId: string) returns (r: Option<Listing>)
      requires Valid()
      ensures r.Some? <==> messageId in listings
      ensures r.Some? ==> (r.value == listings[messageId] && r.value.audit.messageId == messageId
        && ValidForSave(r.value))
    {
      r := if messageId in listings then Some(listings[messageId]) else None;
    }

    /** `new Generator(data).save()`. */
    method InsertListing(l: Listing) returns (r: Result<Listing, SaveError>)
      requires Valid()
      modifies this
      ensures Valid()
      ensures r == InsertResult(old(listings), l) && listings == AfterInsert(old(listings), l)
      ensures users == old(users)
    {
      InsertCharacterised(listings, l);
      r := InsertResult(listings, l);
      if r.Ok? {
        listings := listings[r.value.audit.messageId := r.value];
      }
    }

    /** `markAsSold(soldPrice)` on the stored listing, whose save always passes. */
    method MarkAsSold(messageId: string, soldPrice: Option<int>, now: int) returns (doc: Listing)
      requires Valid() && messageId in listings
      modifies this
      ensures Valid()
      ensures doc == MarkedSold(old(listings)[messageId], soldPrice, now)
      ensures listings == old(listings)[messageId := doc] && users == old(users)
    {
      var l := listings[messageId];
      DocumentMethodsKeepValid(l, soldPrice, now);
      doc := PreSave(Some(l), MarkedSold(l, soldPrice, now));
      listings := listings[messageId := doc];
    }

    /** `incrementViews` on the stored listing. */
    method IncrementViews(messageId: string) returns (doc: Listing)
      requires Valid() && messageId in listings
      modifies this
      ensures Valid()
      ensures doc == old(listings)[messageId].(views := old(listings)[messageId].views + 1)
      ensures listings == old(listings)[messageId := doc] && users == old(users)
    {
      var l := listings[messageId];
      DocumentMethodsKeepValid(l, None, 0);
      doc := PreSave(Some(l), l.(views := l.views + 1));
      listings := listings[messageId := doc];
    }

    /** `incrementWhatsAppClicks` on the stored listing. */
    method IncrementWhatsAppClicks(messageId: string) returns (doc: Listing)
      requires Valid() && messageId in listings
      modifies this
      ensures Valid()
      ensures doc == old(listings)[messageId].(whatsappClicks := old(listings)[messageId].whatsappClicks + 1)
      ensures listings == old(listings)[messageId := doc] && users == old(users)
    {
      var l := listings[messageId];
      DocumentMethodsKeepValid(l, None, 0);
      doc := PreSave(Some(l), l.(whatsappClicks := l.whatsappClicks + 1));
      listings := listings[messageId := doc];
    }

    /** `User.findOrCreate(whatsappId, displayName)`. */
    method FindOrCreate(whatsappId: string, displayName: Option<Json.Json>, now: int)
      returns (r: Result<User, SaveError>)
      requires Valid()
      modifies this
      ensures Valid() && listings == old(listings)
      ensures var spec := FindOrCreateResult(old(users), whatsappId, displayName, now);
        (r.Ok? <==> spec.Ok?)
        && (spec.Ok? ==> users == spec.value.0 && r.value == spec.value.1)
        && (spec.Err? ==> users == old(users) && r.error == spec.error)
    {
      FindOrCreateCharacterised(users, whatsappId, displayName, now);
      var spec := FindOrCreateResult(users, whatsappId, displayName, now);
      if spec.Ok? {
        users := spec.value.0;
        r := Ok(spec.value.1);
      } else {
        r := Err(spec.error);
      }
    }

    /** `new User(data).save()` for an identifier not stored yet. */
    method CreateUser(u: User) returns (r: Result<User, SaveError>)
      requires Valid() && u.whatsappId !in users
      modifies this
      ensures Valid() && listings == old(listings)
      ensures r.Ok? <==> ValidUser(u)
      ensures r.Ok? ==> r.value == u && users == old(users)[u.whatsappId := u]
      ensures r.Err? ==> users == old(users)
    {
      if ValidUser(u) {
        users := users[u.whatsappId := u];
        r := Ok(u);
      } else {
        r := Err(ValidationFailed);
      }
    }

    /** `user.save()` for a user already stored. */
    method SaveUser(u: User) returns (r: Result<User, SaveError>)
      requires Valid() && u.whatsappId in users
      modifies this
      ensures Valid() && listings == old(listings)
      ensures r.Ok? <==> ValidUser(u)
      ensures r.Ok? ==> r.value == u && users == old(users)[u.whatsappId := u]
      ensures r.Err? ==> users == old(users)
    {
      if ValidUser(u) {
        users := users[u.whatsappId := u];
        r := Ok(u);
      } else {
        r := Err(ValidationFailed);
      }
    }

    /** `updateActivity`: the last activity date set to now, then saved. */
    method UpdateActivity(u: User, now: int) returns (r: Result<User, SaveError>)
      requires Valid() && u.whatsappId in users && ValidUser(u)
      modifies this
      ensures Valid() && listings == old(listings)
      ensures r == Ok(Touched(u, now)) && users == old(users)[u.whatsappId := Touched(u, now)]
    {
      r := SaveUser(Touched(u, now));
    }
  }
}
