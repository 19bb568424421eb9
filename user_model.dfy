/**
 * The user document: a seller or administrator identified by a messaging
 * identifier of 10 to 15 digits, with a display name, counters and
 * activity dates.
 */
module UserModel {
  import opened Wrappers
  import opened JsText

  datatype Role = Seller | Admin

  datatype User = User(
    whatsappId: string,
    displayName: Option<string>,
    role: Role,
    isActive: bool,
    totalListings: int,
    successfulSales: int,
    firstMessageDate: int,
    lastActivity: int)

  const MaxDisplayName := 100

  /** The identifier format `^\d{10,15}$`. */
  predicate IsWhatsAppId(s: string) {
    10 <= |s| <= 15 && AllDigits(s)
  }

  /** The schema validators a save runs. */
  predicate ValidUser(u: User) {
    IsWhatsAppId(u.whatsappId) && (u.displayName.Some? ==> |u.displayName.value| <= MaxDisplayName)
  }

  /** JavaScript truthiness of an optional string. */
  predicate TruthyText(s: Option<string>) {
    s.Some? && s.value != ""
  }

  /** The name given to a user who arrived without one: `User ` and the last four characters of the identifier. */
  function DefaultDisplayName(whatsappId: string): (r: string)
    ensures |r| == 5 + (if |whatsappId| < 4 then |whatsappId| else 4)
    ensures r[..5] == "User " && r[5..] == whatsappId[|whatsappId| - (|r| - 5)..]
  {
    "User " + SliceLast(whatsappId, 4)
  }

  /**
   * A new user document: identifier and display name trimmed by their
   * setters, the given name when truthy and the default name otherwise,
   * active, counters at zero, both dates now.
   */
  function NewUser(whatsappId: string, displayName: Option<string>, role: Role, now: int): (u: User)
    ensures u.whatsappId == Trim(whatsappId)
    ensures u.displayName.Some?
    ensures TruthyText(displayName) ==> u.displayName == Some(Trim(displayName.value))
    ensures !TruthyText(displayName) ==> u.displayName == Some(Trim(DefaultDisplayName(whatsappId)))
    ensures u.role == role && u.isActive && u.totalListings == 0 && u.successfulSales == 0
    ensures u.firstMessageDate == now && u.lastActivity == now
  {
    var name := if TruthyText(displayName) then displayName.value else DefaultDisplayName(whatsappId);
    User(Trim(whatsappId), Some(Trim(name)), role, true, 0, 0, now, now)
  }

  /**
   * A user created without a name is valid exactly when the trimmed
   * identifier has the identifier format; a given name must also fit
   * in 100 characters once trimmed.
   */
  lemma NewUserValid(whatsappId: string, displayName: Option<string>, role: Role, now: int)
    ensures !TruthyText(displayName) ==>
      (ValidUser(NewUser(whatsappId, displayName, role, now)) <==> IsWhatsAppId(Trim(whatsappId)))
    ensures TruthyText(displayName) ==>
      (ValidUser(NewUser(whatsappId, displayName, role, now)) <==>
        IsWhatsAppId(Trim(whatsappId)) && |Trim(displayName.value)| <= MaxDisplayName)
  {
    var d := DefaultDisplayName(whatsappId);
    assert |Trim(d)| <= |d|;
  }

  /** `updateActivity` before its save: only the last activity date moves. */
  function Touched(u: User, now: int): (r: User)
    ensures r.lastActivity == now && r == u.(lastActivity := now)
    ensures ValidUser(u) ==> ValidUser(r)
  {
    u.(lastActivity := now)
  }
}
