/**
 * The SOLD reply workflow: a seller replies "SOLD" to their own listing
 * message and the listing is marked sold, after an ordered chain of checks
 * that each end with their own action code. Also the reply helpers and the
 * per-status statistics.
 */
module SoldWorkflow {
  import opened Wrappers
  import opened JsText
  import opened Json
  import opened GeneratorModel
  import opened UserModel
  import opened Store

  /**
   * The outcomes of `handleSoldReply`. The two ways of being ignored share
   * the action code `ignored` but not the message; an invalid status
   * carries the listing's current status.
   */
  datatype SoldAction =
    | NotSoldText
    | NoContext
    | NotFound
    | Unauthorized
    | AlreadySold
    | InvalidStatus(current: Status)
    | MarkedSoldAction
    | Failed

  datatype SoldResult = SoldResult(success: bool, action: SoldAction, message: string)

  /**
   * `message.text?.body?.trim().toLowerCase()`: `None` (`undefined`) when
   * the text or its body is nullish, `Err` when there is a body that is not
   * a string and `trim` throws.
   */
  function ReplyText(message: Json): Result<Option<string>, string> {
    if message.JNull? then Err("Cannot read properties of null")
    else
      var text := Get(Some(message), "text");
      var body := if Nullish(text) then None else Get(text, "body");
      if Nullish(body) then Ok(None)
      else if body.value.JStr? then Ok(Some(Lower(Trim(body.value.s))))
      else Err("trim is not a function")
  }

  /** `message.context?.id`. */
  function ContextId(message: Json): Option<Json> {
    Get(Get(Some(message), "context"), "id")
  }

  /**
   * The action `handleSoldReply` takes for a message from a user, given
   * the stored listings: the checks in source order.
   */
  function SoldDecision(ls: Listings, message: Json, userId: string): SoldAction {
    var reply := ReplyText(message);
    if reply.Err? then Failed
    else if reply.value != Some("sold") then NotSoldText
    else if !Truthy(ContextId(message)) then NoContext
    else
      var query := MessageIdQuery(ContextId(message).value);
      if query.Uncastable? then Failed
      else if !query.ById? || query.key !in ls then NotFound
      else
        var key := query.key;
        if ls[key].sellerId != userId then Unauthorized
        else if ls[key].status == Sold then AlreadySold
        else if ls[key].status != ForSale then InvalidStatus(ls[key].status)
        else MarkedSoldAction
  }

  /** The `action` field of the result. */
  function ActionCode(a: SoldAction): string {
    match a
    case NotSoldText => "ignored"
    case NoContext => "ignored"
    case NotFound => "not_found"
    case Unauthorized => "unauthorized"
    case AlreadySold => "already_sold"
    case InvalidStatus(_) => "invalid_status"
    case MarkedSoldAction => "marked_sold"
    case Failed => "error"
  }

  /** The `message` field of the result. */
  function ActionMessage(a: SoldAction): string {
    match a
    case NotSoldText => "Reply text is not \"SOLD\""
    case NoContext => "No context/original message ID found"
    case NotFound => "Generator not found for the original message"
    case Unauthorized => "User is not authorized to mark this generator as sold"
    case AlreadySold => "Generator is already marked as sold"
    case InvalidStatus(current) => "Generator cannot be sold from status: " + StatusName(current)
    case MarkedSoldAction => "Generator successfully marked as sold"
    case Failed => "Internal error processing SOLD reply"
  }

  /**
   * A reply is ignored, under the one code `ignored`, exactly when its text
   * is not "sold" or it names no original message, and the message says
   * which of the two it was.
   */
  lemma IgnoredCharacterised(ls: Listings, message: Json, userId: string)
    ensures var a := SoldDecision(ls, message, userId);
      (ActionCode(a) == "ignored" <==>
        ReplyText(message).Ok? && (ReplyText(message).value != Some("sold") || !Truthy(ContextId(message))))
      && (ActionCode(a) == "ignored" ==>
        (ActionMessage(a) == "Reply text is not \"SOLD\"" <==> ReplyText(message).value != Some("sold")))
  {
    var a := SoldDecision(ls, message, userId);
    assert ActionCode(a) == "ignored" <==> a == NotSoldText || a == NoContext by {
      if a.InvalidStatus? { assert ActionCode(a)[0] == 'i' && ActionCode(a)[1] == 'n' && ActionCode(a)[2] == 'v'; }
    }
    if a == NoContext {
      assert ActionMessage(a)[0] == 'N';
    }
  }

  /**
   * A listing is marked sold exactly when the reply reads "sold" after
   * trimming and lower-casing, its context id casts to the text key of an
   * existing listing of this seller, and that listing is for sale.
   */
  lemma MarkedSoldExactly(ls: Listings, message: Json, userId: string)
    ensures SoldDecision(ls, message, userId) == MarkedSoldAction <==>
      ReplyText(message) == Ok(Some("sold")) && Truthy(ContextId(message))
      && MessageIdQuery(ContextId(message).value).ById?
      && var key := MessageIdQuery(ContextId(message).value).key;
        key in ls && ls[key].sellerId == userId && ls[key].status == ForSale
  {
  }

  /**
   * A "sold" reply whose context id is the boolean `true` looks for the
   * listing stored under "true", and is `not_found` without one.
   */
  lemma BooleanContextIdNotFound(ls: Listings, message: Json, userId: string)
    requires ReplyText(message) == Ok(Some("sold")) && ContextId(message) == Some(JBool(true))
    ensures SoldDecision(ls, message, userId) == NotFound <==> "true" !in ls
    ensures "true" !in ls ==> ActionCode(SoldDecision(ls, message, userId)) == "not_found"
  {
  }

  /**
   * A "sold" reply whose context id is an object the query cannot cast
   * (no operator key, no `_id`) makes the lookup reject, answered `error`.
   */
  lemma UncastableContextIdFails(ls: Listings, message: Json, userId: string)
    requires ReplyText(message) == Ok(Some("sold")) && Truthy(ContextId(message))
    requires ContextId(message).value.JObj? && !HasOperatorKey(ContextId(message).value.fields)
    requires "_id" !in ContextId(message).value.fields
    ensures SoldDecision(ls, message, userId) == Failed
    ensures ActionCode(SoldDecision(ls, message, userId)) == "error"
  {
  }

  /**
   * Authorisation comes before any status check: a "sold" reply to another
   * seller's listing is unauthorized whatever that listing's status.
   */
  lemma AuthorisationFirst(ls: Listings, message: Json, userId: string, key: string, st: Status)
    requires ReplyText(message) == Ok(Some("sold")) && Truthy(ContextId(message))
    requires MessageIdQuery(ContextId(message).value) == ById(key)
    requires key in ls && ls[key].sellerId != userId
    ensures SoldDecision(ls, message, userId) == Unauthorized
    ensures SoldDecision(ls[key := ls[key].(status := st)], message, userId) == Unauthorized
  {
  }

  /** Repeating a successful "sold" reply is answered with `already_sold`. */
  lemma SecondReplyAlreadySold(ls: Listings, message: Json, userId: string, now: int)
    requires SoldDecision(ls, message, userId) == MarkedSoldAction
    ensures var key := MessageIdQuery(ContextId(message).value).key;
      SoldDecision(ls[key := MarkedSold(ls[key], None, now)], message, userId) == AlreadySold
  {
  }

  /**
   * `handleSoldReply(message, user)` for a stored user. Only `marked_sold`
   * changes anything: the listing is marked sold without a price and the
   * user's successful sales rise by one.
   */
  method HandleSoldReply(db: Database, message: Json, user: User, now: int) returns (res: SoldResult)
    requires db.Valid() && user.whatsappId in db.users && ValidUser(user)
    modifies db
    ensures db.Valid()
    ensures res.action == SoldDecision(old(db.listings), message, user.whatsappId)
    ensures res.message == ActionMessage(res.action)
    ensures res.success <==> res.action == MarkedSoldAction
    ensures res.action != MarkedSoldAction ==> db.listings == old(db.listings) && db.users == old(db.users)
    ensures res.action == MarkedSoldAction ==>
      var key := MessageIdQuery(ContextId(message).value).key;
      db.listings == old(db.listings)[key := MarkedSold(old(db.listings)[key], None, now)]
      && db.users == old(db.users)[user.whatsappId := user.(successfulSales := user.successfulSales + 1)]
  {
    var reply := ReplyText(message);
    if reply.Err? {
      return SoldResult(false, Failed, ActionMessage(Failed));
    }
    if reply.value != Some("sold") {
      return SoldResult(false, NotSoldText, ActionMessage(NotSoldText));
    }
    if !Truthy(ContextId(message)) {
      return SoldResult(false, NoContext, ActionMessage(NoContext));
    }
    var query := MessageIdQuery(ContextId(message).value);
    if query.Uncastable? {
      return SoldResult(false, Failed, ActionMessage(Failed));
    }
    if !query.ById? {
      return SoldResult(false, NotFound, ActionMessage(NotFound));
    }
    var key := query.key;
    var found := db.FindByMessageId(key);
    if found.None? {
      return SoldResult(false, NotFound, ActionMessage(NotFound));
    }
    var generator := found.value;
    if generator.sellerId != user.whatsappId {
      return SoldResult(false, Unauthorized, ActionMessage(Unauthorized));
    }
    if generator.status == Sold {
      return SoldResult(false, AlreadySold, ActionMessage(AlreadySold));
    }
    if generator.status != ForSale {
      return SoldResult(false, InvalidStatus(generator.status), ActionMessage(InvalidStatus(generator.status)));
    }
    var _ := db.MarkAsSold(key, None, now);
    var saved := db.SaveUser(user.(successfulSales := user.successfulSales + 1));
    assert saved.Ok?;
    res := SoldResult(true, MarkedSoldAction, ActionMessage(MarkedSoldAction));
  }

  /** `isReplyMessage`: `context.id` is truthy (reading `context` of `null` throws; see `ExtractReplyInfo`). */
  predicate IsReplyMessage(message: Json) {
    Truthy(ContextId(message))
  }

  datatype ReplyInfo = ReplyInfo(originalMessageId: Json, replyText: string, replyType: Option<Json>, timestamp: Option<Json>)

  /**
   * `extractReplyInfo`: `Err` for a `null` message, whose `context` cannot
   * be read, `null` for a message that is not a reply, `Err` where reading
   * the body throws, otherwise the context id, the trimmed body or `''`,
   * the type and the timestamp.
   */
  function ExtractReplyInfo(message: Json): (r: Result<Option<ReplyInfo>, string>)
    ensures r.Ok? && r.value.Some? ==> ContextId(message).Some? && r.value.value.originalMessageId == ContextId(message).value
    ensures r.Ok? && r.value.Some? ==> Trim(r.value.value.replyText) == r.value.value.replyText
    ensures message.JNull? ==> r.Err?
  {
    if message.JNull? then Err("Cannot read properties of null")
    else if !IsReplyMessage(message) then Ok(None)
    else
      var text := Get(Some(message), "text");
      var body := if Nullish(text) then None else Get(text, "body");
      if !Nullish(body) && !body.value.JStr? then Err("trim is not a function")
      else
        var replyText := if Nullish(body) then "" else Trim(body.value.s);
        TrimIdempotent(if Nullish(body) then "" else body.value.s);
        Ok(Some(ReplyInfo(ContextId(message).value, replyText,
          Get(Some(message), "type"), Get(Some(message), "timestamp"))))
  }

  /**
   * The reply information exists exactly for reply messages, and its text
   * lower-cases to what `handleSoldReply` compares with "sold".
   */
  lemma ReplyInfoAgrees(message: Json)
    ensures ExtractReplyInfo(message).Ok? ==> (ExtractReplyInfo(message).value.Some? <==> IsReplyMessage(message))
    ensures IsReplyMessage(message) ==> (ExtractReplyInfo(message).Err? <==> ReplyText(message).Err?)
    ensures ExtractReplyInfo(message).Ok? && ExtractReplyInfo(message).value.Some? && ReplyText(message).Ok? ==>
      Lower(ExtractReplyInfo(message).value.value.replyText) == (if ReplyText(message).value.Some? then ReplyText(message).value.value else "")
  {
  }

  // ---------------------------------------------------------------- statistics

  /** One `$group` row: a status, its listing count and its total price. */
  datatype Group = Group(status: Status, count: int, totalValue: int)

  datatype Stats = Stats(total: int, counts: map<Status, int>, totalValue: map<Status, int>)

  function InitialStats(): (r: Stats)
    ensures r.total == 0
    ensures forall s: Status :: s in r.counts && r.counts[s] == 0 && s in r.totalValue && r.totalValue[s] == 0
  {
    var zero := map s | s in Statuses :: 0;
    EveryStatusListed();
    Stats(0, zero, zero)
  }

  lemma EveryStatusListed()
    ensures forall s: Status :: s in Statuses
  {
    forall s: Status
      ensures s in Statuses
    {
      match s
      case PendingReview =>
      case ForSale =>
      case Sold =>
      case Rejected =>
      case FailedParsing =>
    }
  }

  /** The `forEach` over the first `n` groups. */
  function Folded(groups: seq<Group>, n: nat): Stats
    requires n <= |groups|
  {
    if n == 0 then InitialStats()
    else
      var r := Folded(groups, n - 1);
      var g := groups[n - 1];
      Stats(r.total + g.count, r.counts[g.status := g.count], r.totalValue[g.status := g.totalValue])
  }

  function SumCounts(groups: seq<Group>): int {
    if groups == [] then 0 else SumCounts(groups[..|groups| - 1]) + groups[|groups| - 1].count
  }

  /** The count the result holds for a status: that of the last group with it, 0 if there is none. */
  function CountOf(groups: seq<Group>, s: Status): int {
    if groups == [] then 0
    else if groups[|groups| - 1].status == s then groups[|groups| - 1].count
    else CountOf(groups[..|groups| - 1], s)
  }

  /** The total price the result holds for a status: that of the last group with it, 0 if there is none. */
  function ValueOf(groups: seq<Group>, s: Status): int {
    if groups == [] then 0
    else if groups[|groups| - 1].status == s then groups[|groups| - 1].totalValue
    else ValueOf(groups[..|groups| - 1], s)
  }

  /**
   * `getSoldWorkflowStats` over the grouped records: the total is the sum of
   * the group counts, and each status shows the count and the total price
   * of its group, 0 without one.
   */
  method SoldWorkflowStats(groups: seq<Group>) returns (r: Stats)
    ensures r == Folded(groups, |groups|)
    ensures r.total == SumCounts(groups)
    ensures forall s: Status :: s in r.counts && r.counts[s] == CountOf(groups, s)
    ensures forall s: Status :: s in r.totalValue && r.totalValue[s] == ValueOf(groups, s)
  {
    r := InitialStats();
    for i := 0 to |groups|
      invariant r == Folded(groups, i)
    {
      var g := groups[i];
      r := Stats(r.total + g.count, r.counts[g.status := g.count], r.totalValue[g.status := g.totalValue]);
    }
    assert groups[..|groups|] == groups;
    forall s: Status
      ensures s in r.counts && r.counts[s] == CountOf(groups, s)
      ensures s in r.totalValue && r.totalValue[s] == ValueOf(groups, s)
    {
      StatsCharacterised(groups, |groups|, s);
    }
    StatsCharacterised(groups, |groups|, PendingReview);
  }

  /**
   * `total` is the sum of all group counts, and each status shows its own
   * group's count and total price, 0 without one.
   */
  lemma {:induction false} StatsCharacterised(groups: seq<Group>, n: nat, s: Status)
    requires n <= |groups|
    ensures Folded(groups, n).total == SumCounts(groups[..n])
    ensures s in Folded(groups, n).counts && Folded(groups, n).counts[s] == CountOf(groups[..n], s)
    ensures s in Folded(groups, n).totalValue && Folded(groups, n).totalValue[s] == ValueOf(groups[..n], s)
  {
    if n == 0 {
      assert groups[..0] == [];
    } else {
      StatsCharacterised(groups, n - 1, s);
      assert groups[..n][..n - 1] == groups[..n - 1];
    }
  }

  function SumOver(ss: seq<Status>, counts: map<Status, int>): int
    requires forall i :: 0 <= i < |ss| ==> ss[i] in counts
  {
    if ss == [] then 0 else counts[ss[0]] + SumOver(ss[1..], counts)
  }

  predicate DistinctStatuses(groups: seq<Group>) {
    forall i, j :: 0 <= i < j < |groups| ==> groups[i].status != groups[j].status
  }

  /**
   * With one group per status, as `$group` produces, the total equals the
   * sum of the five per-status counts.
   */
  lemma {:induction false} TotalIsSumOfStatuses(groups: seq<Group>)
    requires DistinctStatuses(groups)
    ensures forall s: Status :: s in Folded(groups, |groups|).counts
    ensures Folded(groups, |groups|).total == SumOver(Statuses, Folded(groups, |groups|).counts)
    decreases |groups|
  {
    var z := InitialStats();
    if groups == [] {
      SumOverZero(Statuses, z.counts);
    } else {
      var n := |groups|;
      var init := groups[..n - 1];
      TotalIsSumOfStatuses(init);
      var g := groups[n - 1];
      FoldedPrefix(groups, n - 1);
      var prev := Folded(groups, n - 1);
      assert prev.counts[g.status] == 0 by {
        StatsCharacterised(groups, n - 1, g.status);
        assert groups[..n - 1] == init;
        CountOfAbsent(init, g.status);
      }
      StatusesDistinct();
      EveryStatusListed();
      SumOverUpdate(Statuses, prev.counts, g.status, g.count);
    }
  }

  lemma StatusesDistinct()
    ensures forall i, j :: 0 <= i < j < |Statuses| ==> Statuses[i] != Statuses[j]
  {
  }

  lemma {:induction false} FoldedPrefix(groups: seq<Group>, n: nat)
    requires n <= |groups|
    ensures Folded(groups, n) == Folded(groups[..n], n)
    decreases n
  {
    if n > 0 {
      FoldedPrefix(groups, n - 1);
      FoldedPrefix(groups[..n], n - 1);
      assert groups[..n][..n - 1] == groups[..n - 1];
    }
  }

  lemma {:induction false} CountOfAbsent(groups: seq<Group>, s: Status)
    requires forall i :: 0 <= i < |groups| ==> groups[i].status != s
    ensures CountOf(groups, s) == 0
    decreases |groups|
  {
    if groups != [] {
      CountOfAbsent(groups[..|groups| - 1], s);
    }
  }

  lemma {:induction false} SumOverUpdate(ss: seq<Status>, counts: map<Status, int>, s: Status, c: int)
    requires forall i :: 0 <= i < |ss| ==> ss[i] in counts
    requires forall i, j :: 0 <= i < j < |ss| ==> ss[i] != ss[j]
    requires s in ss && counts[s] == 0
    ensures SumOver(ss, counts[s := c]) == SumOver(ss, counts) + c
    decreases |ss|
  {
    if ss[0] == s {
      SumOverSame(ss[1..], counts, s, c);
    } else {
      SumOverUpdate(ss[1..], counts, s, c);
    }
  }

  lemma {:induction false} SumOverZero(ss: seq<Status>, counts: map<Status, int>)
    requires forall i :: 0 <= i < |ss| ==> ss[i] in counts && counts[ss[i]] == 0
    ensures SumOver(ss, counts) == 0
    decreases |ss|
  {
    if ss != [] {
      SumOverZero(ss[1..], counts);
    }
  }

  lemma {:induction false} SumOverSame(ss: seq<Status>, counts: map<Status, int>, s: Status, c: int)
    requires forall i :: 0 <= i < |ss| ==> ss[i] in counts && ss[i] != s
    ensures SumOver(ss, counts[s := c]) == SumOver(ss, counts)
    decreases |ss|
  {
    if ss != [] {
      SumOverSame(ss[1..], counts, s, c);
    }
  }
}
