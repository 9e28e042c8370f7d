/** The outgoing webhook event names users may subscribe to. */
module WebhookEvents {
  /** Each event name with the description shown to users. */
  const WebhookEventTable: map<string, string> := map[
    "analysis.completed" := "Triggered when an analysis completes successfully",
    "analysis.failed" := "Triggered when an analysis fails",
    "quota.warning" := "Triggered when 80% of quota is used",
    "quota.exceeded" := "Triggered when quota is exceeded",
    "api_key.created" := "Triggered when a new API key is created",
    "api_key.revoked" := "Triggered when an API key is revoked"]

  /** The event type: exactly the table's names. */
  type WebhookEvent = e: string | e in WebhookEventTable witness "analysis.completed"

  predicate IsValidWebhookEvent(e: string)
  {
    e in WebhookEventTable
  }

  /** The table holds exactly the six names, each accepted, and nothing else is. */
  lemma SixEvents(e: string)
    ensures WebhookEventTable.Keys == {"analysis.completed", "analysis.failed", "quota.warning", "quota.exceeded",
                                       "api_key.created", "api_key.revoked"}
    ensures |WebhookEventTable| == 6
    ensures IsValidWebhookEvent(e) <==> e in ["analysis.completed", "analysis.failed", "quota.warning",
                                             "quota.exceeded", "api_key.created", "api_key.revoked"]
  {
    var names := {"analysis.completed", "analysis.failed", "quota.warning", "quota.exceeded",
                  "api_key.created", "api_key.revoked"};
    assert WebhookEventTable.Keys == names;
    assert |names| == 6;
  }

  /** A name outside the table, such as the one used when testing an endpoint, is not an event. */
  lemma TestEventIsNotAnEvent()
    ensures !IsValidWebhookEvent("test.event")
  {
  }
}
