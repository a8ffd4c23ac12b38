/** End-to-end runs of the handler on concrete webhook payloads. */
module Scenarios {
  import opened JsValues
  import opened Optional
  import opened Phone
  import opened Webhook
  import opened Crm
  import opened Directory
  import opened Router

  /** A new inbound call, id call_1, from the number `raw`. */
  function InboundCall(raw: string): WebhookEvent
  {
    WebhookEvent(Str("call.created"), Some(CallData(Str("inbound"), Str(raw), "call_1")))
  }

  /** The contact found for that number, owned by HubSpot owner 42. */
  function AnaFound(): SearchResponse
  {
    SearchResults([Contact(Str("Ana"), Str("42"))])
  }

  /** For the number written with spaces, the owner's directory entry is
      found and available: the call goes to user u9, after exactly the four
      requests of the chain. The number is a parameter fixed by `requires`, as
      in `SpacedNumberExample`, to keep the verifier from unfolding it eagerly. */
  lemma AvailableOwnerGetsTheCall(raw: string)
    requires raw == "+1 415 555 0100"
    ensures HandleCallsPost(InboundCall(raw), AnaFound(), OwnerRecord(Str("ana@co.com")),
                            Listing([User("u9", Str("ana@co.com"), true, "available")]))
         == Outcome(Sent(200),
                    [ContactSearch("+14155550100"), OwnerFetch("42"), DirectoryFetch,
                     TransferPost("call_1", "u9")],
                    Transfer("call_1", "u9"))
  {
    SpacedNumberExample(raw);
  }

  /** The same call when no directory user has the owner's email: the chain
      stops after the directory fetch, with no transfer. The number is a
      parameter for the same reason as above. */
  lemma UnknownOwnerEmailAborts(raw: string)
    requires raw == "+1 415 555 0100"
    ensures HandleCallsPost(InboundCall(raw), AnaFound(), OwnerRecord(Str("ana@co.com")),
                            Listing([User("u9", Str("Ana@co.com"), true, "available")]))
         == Outcome(Sent(200),
                    [ContactSearch("+14155550100"), OwnerFetch("42"), DirectoryFetch],
                    Abort(AgentNotFound))
  {
    SpacedNumberExample(raw);
  }

  /** A hang-up event is acknowledged and nothing is looked up. */
  lemma OtherEventIgnored(search: SearchResponse, owner: OwnerResponse,
                          directory: DirectoryResponse)
    ensures HandleCallsPost(WebhookEvent(Str("call.ended"), None), search, owner, directory)
         == Outcome(Sent(200), [], Abort(EventNotHandled))
  {
  }
}
