/** The Zapier webhook registry: webhooks kept in an insertion-ordered map,
    created active with a catch-hook URL under the account, listed, deleted,
    and triggered by one JSON `POST`. The two fresh uuids `createWebhook`
    draws and the HTTP status the hook answers with are parameters. */
module ZapierClient {
  import opened Wrappers
  import opened Errors
  import OrderedMap

  type OMap<V> = OrderedMap.OMap<V>

  datatype Webhook = Webhook(id: string, url: string, event: string, active: bool)

  datatype Client = Client(accountId: string, webhooks: OMap<Webhook>)

  /** The one outbound request `triggerWebhook` makes. */
  datatype Request = Request(url: string, httpMethod: string, contentType: string, body: string)

  /** What a trigger did: the request it sent, if any, and how it ended. */
  datatype Trigger = Trigger(sent: Option<Request>, outcome: Result<(), AppError>)

  const CatchHookBase := "https://hooks.zapier.com/hooks/catch/"

  const WebhookUnavailable := AppError("Webhook not found or inactive", NotFound, 404)

  function TriggerFailed(status: int): AppError {
    AppError("Failed to trigger webhook", IntegrationError, status)
  }

  /** `response.ok`: a status in the range 200-299. */
  predicate IsOk(status: int) {
    200 <= status <= 299
  }

  function NewClient(accountId: string): (c: Client)
    ensures c.accountId == accountId && c.webhooks.entries == map[]
  {
    Client(accountId, OrderedMap.Empty())
  }

  /** `createWebhook(event)`: a new active webhook for `event`, stored under
      `id`, whose URL is the account's catch hook followed by `token`. */
  function CreateWebhook(client: Client, id: string, token: string, event: string): (r: (Client, Webhook))
    ensures r.1.id == id && r.1.event == event && r.1.active
    ensures r.1.url == CatchHookBase + client.accountId + "/" + token
    ensures r.0.accountId == client.accountId
    ensures r.0.webhooks.entries == client.webhooks.entries[id := r.1]
    ensures id !in client.webhooks.entries ==>
              |r.0.webhooks.entries| == |client.webhooks.entries| + 1
              && r.0.webhooks.order == client.webhooks.order + [id]
  {
    var webhook := Webhook(id, CatchHookBase + client.accountId + "/" + token, event, true);
    (client.(webhooks := OrderedMap.Set(client.webhooks, id, webhook)), webhook)
  }

  /** `listWebhooks`: each stored webhook once, in creation order. */
  function ListWebhooks(client: Client): (r: seq<Webhook>)
    ensures |r| == |client.webhooks.entries|
    ensures |r| == |client.webhooks.order|
    ensures forall i :: 0 <= i < |r| ==> client.webhooks.order[i] in client.webhooks.entries && r[i] == client.webhooks.entries[client.webhooks.order[i]]
    ensures forall w :: w in r <==> w in client.webhooks.entries.Values
  {
    var r := OrderedMap.Values(client.webhooks);
    assert forall w :: w in r <==> w in client.webhooks.entries.Values by {
      forall w ensures w in r <==> w in client.webhooks.entries.Values {
        OrderedMap.ValuesAreEntries(client.webhooks, w);
      }
    }
    r
  }

  /** `deleteWebhook`: true exactly when the id was stored; every other
      webhook stays as it was. */
  function DeleteWebhook(client: Client, id: string): (r: (Client, bool))
    ensures r.1 <==> id in client.webhooks.entries
    ensures id !in r.0.webhooks.entries
    ensures forall k :: k in client.webhooks.entries && k != id ==>
              k in r.0.webhooks.entries && r.0.webhooks.entries[k] == client.webhooks.entries[k]
    ensures r.0.webhooks.order == OrderedMap.Without(client.webhooks.order, id)
    ensures r.0.accountId == client.accountId
  {
    var (webhooks, existed) := OrderedMap.Delete(client.webhooks, id);
    (client.(webhooks := webhooks), existed)
  }

  /** `triggerWebhook(id, data)`, with `body` the serialised data and `status`
      the status the hook answers with. An unknown or inactive webhook fails
      with NOT_FOUND before any request; otherwise one `POST` goes to the
      webhook's URL, and a status outside 200-299 fails with
      INTEGRATION_ERROR carrying that status. */
  function TriggerWebhook(client: Client, id: string, body: string, status: int): (r: Trigger)
    ensures r.sent.None? <==> id !in client.webhooks.entries || !client.webhooks.entries[id].active
    ensures r.sent.None? ==> r.outcome == Err(WebhookUnavailable)
    ensures r.sent.Some? ==>
              r.sent.value == Request(client.webhooks.entries[id].url, "POST", "application/json", body)
    ensures r.sent.Some? ==> (r.outcome.Ok? <==> IsOk(status))
    ensures r.sent.Some? && !IsOk(status) ==> r.outcome == Err(TriggerFailed(status))
  {
    match OrderedMap.Get(client.webhooks, id)
    case None => Trigger(None, Err(WebhookUnavailable))
    case Some(webhook) =>
      if !webhook.active then Trigger(None, Err(WebhookUnavailable))
      else
        var request := Request(webhook.url, "POST", "application/json", body);
        if IsOk(status) then Trigger(Some(request), Ok(()))
        else Trigger(Some(request), Err(TriggerFailed(status)))
  }

  /** A freshly created webhook is listed, and triggering it sends its
      request to its catch-hook URL. */
  lemma CreatedWebhookTriggers(client: Client, id: string, token: string, event: string, body: string, status: int)
    ensures var (c, w) := CreateWebhook(client, id, token, event);
            w in ListWebhooks(c)
            && TriggerWebhook(c, id, body, status).sent == Some(Request(w.url, "POST", "application/json", body))
  {
    var (c, w) := CreateWebhook(client, id, token, event);
    assert c.webhooks.entries[id] == w;
  }

  /** A deleted webhook can no longer be triggered, and deleting it again
      reports false. */
  lemma DeletedWebhookUnavailable(client: Client, id: string, body: string, status: int)
    ensures var c := DeleteWebhook(client, id).0;
            TriggerWebhook(c, id, body, status) == Trigger(None, Err(WebhookUnavailable))
            && !DeleteWebhook(c, id).1
  {
  }
}
