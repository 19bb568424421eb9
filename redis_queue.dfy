/**
 * The message queue between the webhook receiver and the parser worker: a
 * Redis list pushed at the head and popped at the tail, and the client's
 * reconnect policy.
 */
module RedisQueue {
  import opened Wrappers
  import opened Json

  // ---------------------------------------------------------------- reconnect policy

  /** What the client reports to its retry strategy: the error code, if any, the time spent retrying and the attempt number. */
  datatype RetryOptions = RetryOptions(errorCode: Option<string>, totalRetryTime: int, attempt: int)

  /** Stop with an error, stop without one (`undefined`), or reconnect after a delay in milliseconds. */
  datatype RetryDecision = GiveUp(message: string) | StopRetrying | ReconnectAfter(delayMs: int)

  const MaxRetryTimeMs := 3600000
  const MaxAttempts := 10
  const MaxDelayMs := 3000

  function RetryStrategy(o: RetryOptions): (d: RetryDecision)
    ensures d.ReconnectAfter? ==> d.delayMs <= MaxDelayMs
    ensures d.ReconnectAfter? && o.attempt >= 1 ==> d.delayMs >= 100
  {
    if o.errorCode == Some("ECONNREFUSED") then GiveUp("Redis server connection refused")
    else if o.totalRetryTime > MaxRetryTimeMs then GiveUp("Retry time exhausted")
    else if o.attempt > MaxAttempts then StopRetrying
    else ReconnectAfter(if o.attempt * 100 < MaxDelayMs then o.attempt * 100 else MaxDelayMs)
  }

  /**
   * A refused connection ends retrying whatever the time spent and the
   * attempt count; otherwise an hour of retrying ends it, then the eleventh
   * attempt; a reconnect is scheduled only within both limits, and later
   * attempts never wait less.
   */
  lemma RetryOrder(o: RetryOptions, later: RetryOptions)
    ensures o.errorCode == Some("ECONNREFUSED") ==> RetryStrategy(o) == GiveUp("Redis server connection refused")
    ensures o.errorCode != Some("ECONNREFUSED") && o.totalRetryTime > MaxRetryTimeMs ==>
      RetryStrategy(o) == GiveUp("Retry time exhausted")
    ensures RetryStrategy(o).ReconnectAfter? <==>
      o.errorCode != Some("ECONNREFUSED") && o.totalRetryTime <= MaxRetryTimeMs && o.attempt <= MaxAttempts
    ensures RetryStrategy(o).ReconnectAfter? && RetryStrategy(later).ReconnectAfter? && o.attempt <= later.attempt ==>
      RetryStrategy(o).delayMs <= RetryStrategy(later).delayMs
  {
  }

  // ---------------------------------------------------------------- list semantics

  /** `LPUSH`: the new element goes to the head. */
  function Pushed(list: seq<Json>, m: Json): (r: seq<Json>)
    ensures |r| == |list| + 1 && r[0] == m && r[1..] == list
  {
    [m] + list
  }

  /** Pushing several messages, one after the other. */
  function PushAll(list: seq<Json>, ms: seq<Json>): seq<Json>
    decreases |ms|
  {
    if ms == [] then list else PushAll(Pushed(list, ms[0]), ms[1..])
  }

  /** The order in which repeated `BRPOP`s, each taking the tail, deliver a list's elements. */
  function Drained(list: seq<Json>): seq<Json>
    decreases |list|
  {
    if list == [] then [] else [list[|list| - 1]] + Drained(list[..|list| - 1])
  }

  lemma {:induction false} DrainedAppend(a: seq<Json>, b: seq<Json>)
    ensures Drained(a + b) == Drained(b) + Drained(a)
    decreases |b|
  {
    if b == [] {
      assert a + b == a;
    } else {
      assert (a + b)[..|a + b| - 1] == a + b[..|b| - 1];
      DrainedAppend(a, b[..|b| - 1]);
    }
  }

  /**
   * Messages come out in the order they went in, after everything that was
   * already waiting.
   */
  lemma {:induction false} Fifo(list: seq<Json>, ms: seq<Json>)
    ensures Drained(PushAll(list, ms)) == Drained(list) + ms
    decreases |ms|
  {
    if ms != [] {
      Fifo(Pushed(list, ms[0]), ms[1..]);
      DrainedAppend([ms[0]], list);
      assert Drained([ms[0]]) == [ms[0]];
      assert ms == [ms[0]] + ms[1..];
    }
  }

  /**
   * The queue `queueOperations` works on. `up` stands for whether the Redis
   * server answers; when it does not, every operation fails with an error
   * that is passed on to the caller, and the list is untouched.
   */
  class MessageQueue {
    var items: seq<Json>
    var up: bool

    constructor(up: bool)
      ensures items == [] && this.up == up
    {
      items := [];
      this.up := up;
    }

    /** `addToQueue`: push at the head and return the new length. */
    method AddToQueue(m: Json) returns (r: Result<nat, string>)
      modifies this
      ensures up == old(up)
      ensures up ==> items == Pushed(old(items), m) && r == Ok(|items|)
      ensures !up ==> items == old(items) && r.Err?
    {
      if up {
        items := Pushed(items, m);
        r := Ok(|items|);
      } else {
        r := Err("connection lost");
      }
    }

    /**
     * `getFromQueue`: the element at the tail, or `null` when the list stays
     * empty until the timeout (nothing else writes to it meanwhile).
     */
    method GetFromQueue() returns (r: Result<Option<Json>, string>)
      modifies this
      ensures up == old(up)
      ensures up && old(items) != [] ==>
        r == Ok(Some(Drained(old(items))[0])) && items == old(items)[..|old(items)| - 1]
        && Drained(old(items)) == [r.value.value] + Drained(items)
      ensures up && old(items) == [] ==> r == Ok(None) && items == []
      ensures !up ==> r.Err? && items == old(items)
    {
      if !up {
        r := Err("connection lost");
      } else if items == [] {
        r := Ok(None);
      } else {
        r := Ok(Some(items[|items| - 1]));
        items := items[..|items| - 1];
      }
    }

    /** `getQueueLength`. */
    method GetQueueLength() returns (r: Result<nat, string>)
      ensures up ==> r == Ok(|items|)
      ensures !up ==> r.Err?
    {
      r := if up then Ok(|items|) else Err("connection lost");
    }

    /** `clearQueue`: `DEL` of the key, which reports whether there was a list to delete. */
    method ClearQueue() returns (r: Result<nat, string>)
      modifies this
      ensures up == old(up)
      ensures up ==> items == [] && r == Ok(if old(items) == [] then 0 else 1)
      ensures !up ==> r.Err? && items == old(items)
    {
      if up {
        r := Ok(if items == [] then 0 else 1);
        items := [];
      } else {
        r := Err("connection lost");
      }
    }
  }
}
