/**
 * The webhook receiver: the verification handshake, the endpoint that
 * enriches each delivery and queues it, and the queue status and clear
 * endpoints. The verify token comes from the environment and is a
 * parameter here, as is the current time as an ISO string.
 */
module Ingestion {
  import opened Wrappers
  import opened JsText
  import opened Json
  import opened RedisQueue

  datatype Body = Text(s: string) | NoBody | JsonBody(j: Json)
  datatype Response = Response(status: nat, body: Body)

  const Forbidden := Response(403, Text("Forbidden"))

  /**
   * `GET /api/webhook`: the challenge is echoed when the mode is
   * `subscribe` and the token is strictly equal to the configured one.
   */
  function VerifyWebhook(mode: Option<string>, token: Option<string>, challenge: Option<string>, secret: Option<string>)
    : (r: Response)
    ensures r.status == 200 || r == Forbidden
    ensures r.status == 200 <==> mode == Some("subscribe") && token == secret
    ensures r.status == 200 ==> r.body == if challenge.Some? then Text(challenge.value) else NoBody
  {
    if mode == Some("subscribe") && token == secret then
      Response(200, if challenge.Some? then Text(challenge.value) else NoBody)
    else Forbidden
  }

  /**
   * Strict equality of two missing values holds: with no token configured,
   * a subscribe request that sends no token is verified, and one that sends
   * any token is not.
   */
  lemma VerifyWithoutConfiguredToken(challenge: Option<string>, token: Option<string>)
    ensures VerifyWebhook(Some("subscribe"), None, challenge, None).status == 200
    ensures token.Some? ==> VerifyWebhook(Some("subscribe"), token, challenge, None) == Forbidden
  {
  }

  /** The check on the parsed body: truthy and of type `object` (arrays included). */
  predicate ValidPayload(p: Option<Json>) {
    Truthy(p) && IsObjectType(p)
  }

  /** The own enumerable properties an object spread copies: an object's fields, an array's elements under their indices. */
  function Spread(p: Json): (r: map<string, Json>)
    requires p.JObj? || p.JArr?
    ensures p.JObj? ==> r == p.fields
    ensures p.JArr? ==> forall i :: 0 <= i < |p.items| ==> NatToString(i) in r && r[NatToString(i)] == p.items[i]
  {
    if p.JObj? then p.fields
    else
      NatToStringInjective();
      map i | 0 <= i < |p.items| :: NatToString(i) := p.items[i]
  }

  lemma NatToStringInjective()
    ensures forall i: nat, j: nat {:trigger NatToString(i), NatToString(j)} :: NatToString(i) == NatToString(j) ==> i == j
  {
    forall i: nat, j: nat | NatToString(i) == NatToString(j)
      ensures i == j
    {
      assert DecimalValue(NatToString(i)) == i;
    }
  }

  /** The queued message: the payload's properties, then the three processing fields, which win over properties of the same name. */
  function Enriched(p: Json, nowIso: string): (r: Json)
    requires p.JObj? || p.JArr?
    ensures r.JObj?
  {
    JObj(Spread(p)["received_at" := JStr(nowIso)]["processing_status" := JStr("queued")]["service_version" := JStr("1.0.0")])
  }

  /** The queued message keeps every other property of an object payload and sets the three processing fields. */
  lemma EnrichedFields(p: Json, nowIso: string, k: string)
    requires p.JObj?
    ensures Enriched(p, nowIso).fields.Keys == p.fields.Keys + {"received_at", "processing_status", "service_version"}
    ensures k in p.fields && k !in {"received_at", "processing_status", "service_version"} ==>
      Enriched(p, nowIso).fields[k] == p.fields[k]
    ensures Enriched(p, nowIso).fields["received_at"] == JStr(nowIso)
    ensures Enriched(p, nowIso).fields["processing_status"] == JStr("queued")
    ensures Enriched(p, nowIso).fields["service_version"] == JStr("1.0.0")
  {
  }

  function InvalidPayload(): Response {
    Response(400, JsonBody(JObj(map["error" := JStr("Invalid payload")])))
  }

  /** `POST /api/webhook`. Every outcome other than a rejected payload answers 200, so the sender does not retry. */
  method ReceiveWebhook(q: MessageQueue, payload: Option<Json>, nowIso: string) returns (resp: Response)
    modifies q
    ensures q.up == old(q.up)
    ensures !ValidPayload(payload) ==> resp == InvalidPayload() && q.items == old(q.items)
    ensures ValidPayload(payload) && q.up ==>
      q.items == Pushed(old(q.items), Enriched(payload.value, nowIso))
      && resp == Response(200, JsonBody(JObj(map["success" := JBool(true),
        "message" := JStr("Webhook received and queued for processing"), "timestamp" := JStr(nowIso)])))
    ensures ValidPayload(payload) && !q.up ==>
      q.items == old(q.items) && resp.status == 200 && resp.body.JsonBody?
      && Get(Some(resp.body.j), "success") == Some(JBool(false))
  {
    if !ValidPayload(payload) {
      return InvalidPayload();
    }
    var r := q.AddToQueue(Enriched(payload.value, nowIso));
    if r.Ok? {
      resp := Response(200, JsonBody(JObj(map["success" := JBool(true),
        "message" := JStr("Webhook received and queued for processing"), "timestamp" := JStr(nowIso)])));
    } else {
      var body := JObj(map["success" := JBool(false),
        "message" := JStr("Webhook received but failed to queue"), "error" := JStr(r.error), "timestamp" := JStr(nowIso)]);
      resp := Response(200, JsonBody(body));
    }
  }

  /** `GET /api/queue/status`: the current length as `pending_messages`. */
  method QueueStatus(q: MessageQueue, queueName: string, nowIso: string) returns (resp: Response)
    ensures q.up ==> (resp.status == 200 && resp.body.JsonBody?
      && Get(Some(resp.body.j), "pending_messages") == Some(JNum(|q.items|)))
    ensures !q.up ==> resp.status == 500
  {
    var r := q.GetQueueLength();
    if r.Ok? {
      var body := JObj(map["queue_name" := JStr(queueName),
        "pending_messages" := JNum(r.value), "timestamp" := JStr(nowIso)]);
      resp := Response(200, JsonBody(body));
    } else {
      resp := Response(500, JsonBody(JObj(map["error" := JStr("Failed to get queue status"), "message" := JStr(r.error)])));
    }
  }

  /** `DELETE /api/queue/clear`: refused in production, otherwise the queue is emptied. */
  method ClearQueue(q: MessageQueue, production: bool, queueName: string, nowIso: string) returns (resp: Response)
    modifies q
    ensures q.up == old(q.up)
    ensures production ==> resp.status == 403 && q.items == old(q.items)
    ensures !production && q.up ==> resp.status == 200 && q.items == []
    ensures !production && !q.up ==> resp.status == 500 && q.items == old(q.items)
  {
    if production {
      return Response(403, JsonBody(JObj(map["error" := JStr("Queue clearing not allowed in production")])));
    }
    var r := q.ClearQueue();
    if r.Ok? {
      resp := Response(200, JsonBody(JObj(map["success" := JBool(true),
        "message" := JStr("Queue " + queueName + " cleared"), "deleted_count" := JNum(r.value), "timestamp" := JStr(nowIso)])));
    } else {
      resp := Response(500, JsonBody(JObj(map["error" := JStr("Failed to clear queue"), "message" := JStr(r.error)])));
    }
  }
}
