/** The `POST /aircall/calls` handler (index.js lines 158-212) as one pure
    function. The three remote answers it waits for are inputs; the outbound
    requests it issues are recorded in order, so that "no lookup" and
    "exactly one transfer" can be stated. */
module Router {
  import opened JsValues
  import opened Phone
  import opened Webhook
  import opened Crm
  import opened Directory

  /** An outbound request, with the argument the source puts into it. */
  datatype Request =
    | ContactSearch(phone: string)                 // HubSpot contact search, filter value
    | OwnerFetch(ownerPath: string)                // HubSpot `/owners/{id}`
    | DirectoryFetch                               // Aircall `/v1/users`
    | TransferPost(callId: string, userId: string) // Aircall `/v1/calls/{id}/transfers`
  {
    /** The stage of the pipeline that issues this request. */
    function Stage(): nat
    {
      match this
      case ContactSearch(_) => 0
      case OwnerFetch(_) => 1
      case DirectoryFetch => 2
      case TransferPost(_, _) => 3
    }
  }

  datatype AbortReason =
    | EventNotHandled
    | DirectionNotHandled
    | MalformedPayload
    | ContactLookupFailed
    | ContactNotFound
    | OwnerNotAssigned
    | OwnerLookupFailed
    | DirectoryLookupFailed
    | AgentNotFound
    | AgentUnavailable

  datatype Decision = Transfer(callId: string, agentId: string) | Abort(reason: AbortReason)

  /** The answer to the webhook sender: the handler either reaches
      `res.sendStatus(200)` or throws before it. */
  datatype Ack = Sent(status: nat) | Threw

  /** The requests issued and the decision reached by the lookup chain. */
  datatype Run = Run(requests: seq<Request>, decision: Decision)

  datatype Outcome = Outcome(ack: Ack, requests: seq<Request>, decision: Decision)

  /** The lookup chain for one inbound call: contact search, owner fetch,
      directory scan, transfer. Each stage runs only after the previous one
      answered and stops the chain on its own failure. */
  function RouteCall(phone: string, callId: string, search: SearchResponse,
                     owner: OwnerResponse, directory: DirectoryResponse): Run
  {
    var searched := [ContactSearch(phone)];
    match ResolveContact(search)
    case LookupFailed => Run(searched, Abort(ContactLookupFailed))
    case NotFound => Run(searched, Abort(ContactNotFound))
    case OwnerMissing => Run(searched, Abort(OwnerNotAssigned))
    case Found(contact) =>
      var fetched := searched + [OwnerFetch(OwnerPath(contact))];
      match owner
      case OwnerUnreachable => Run(fetched, Abort(OwnerLookupFailed))
      case OwnerRecord(email) =>
        var listed := fetched + [DirectoryFetch];
        match ResolveAgent(directory, email)
        case DirectoryFailed => Run(listed, Abort(DirectoryLookupFailed))
        case NoAgent => Run(listed, Abort(AgentNotFound))
        case Unavailable(_) => Run(listed, Abort(AgentUnavailable))
        case Available(agentId) =>
          Run(listed + [TransferPost(callId, agentId)], Transfer(callId, agentId))
  }

  /** The whole handler: classify the event, run the chain for an inbound
      call, acknowledge. */
  function HandleCallsPost(e: WebhookEvent, search: SearchResponse,
                           owner: OwnerResponse, directory: DirectoryResponse): Outcome
  {
    match Classify(e)
    case IgnoredEvent(_) => Outcome(Sent(200), [], Abort(EventNotHandled))
    case IgnoredDirection(_) => Outcome(Sent(200), [], Abort(DirectionNotHandled))
    case Throws => Outcome(Threw, [], Abort(MalformedPayload))
    case Inbound(raw, callId) =>
      var run := RouteCall(StripWhitespace(raw), callId, search, owner, directory);
      Outcome(Sent(200), run.requests, run.decision)
  }

  // ---------------------------------------------------------------------------
  // Reference predicates, stated on the raw inputs

  /** A new inbound call whose caller number is a string. */
  ghost predicate IsRoutedCall(e: WebhookEvent)
  {
    && e.event == Str("call.created")
    && e.data.Some?
    && e.data.value.direction == Str("inbound")
    && e.data.value.rawDigits.Str?
  }

  /** The handler reads a property of a missing value before acknowledging. */
  ghost predicate HandlerThrows(e: WebhookEvent)
  {
    && e.event == Str("call.created")
    && (e.data.None? ||
        (e.data.value.direction == Str("inbound") && !e.data.value.rawDigits.Str?))
  }

  /** Every condition under which the call goes to `agentId`. */
  ghost predicate TransfersTo(e: WebhookEvent, search: SearchResponse, owner: OwnerResponse,
                              directory: DirectoryResponse, callId: string, agentId: string)
  {
    && IsRoutedCall(e)
    && callId == e.data.value.id
    && search.SearchResults?
    && |search.results| > 0
    && search.results[0].ownerId != Null
    && owner.OwnerRecord?
    && directory.Listing?
    && exists i :: IsFirstMatch(directory.users, owner.email, i)
                   && IsAvailable(directory.users[i])
                   && directory.users[i].id == agentId
  }

  /** The number of transfer requests in a trace. */
  function TransferCount(rs: seq<Request>): nat
  {
    if |rs| == 0 then 0
    else (if rs[0].TransferPost? then 1 else 0) + TransferCount(rs[1..])
  }

  lemma {:induction false} TransferCountAppend(a: seq<Request>, b: seq<Request>)
    ensures TransferCount(a + b) == TransferCount(a) + TransferCount(b)
  {
    if |a| == 0 {
      assert a + b == b;
    } else {
      assert (a + b)[0] == a[0];
      assert (a + b)[1..] == a[1..] + b;
      TransferCountAppend(a[1..], b);
    }
  }

  /** A trace without transfer requests counts none. */
  lemma {:induction false} NoTransferCounted(rs: seq<Request>)
    requires forall i :: 0 <= i < |rs| ==> !rs[i].TransferPost?
    ensures TransferCount(rs) == 0
  {
    if |rs| > 0 {
      assert forall i :: 0 <= i < |rs[1..]| ==> rs[1..][i] == rs[i + 1];
      NoTransferCounted(rs[1..]);
    }
  }

  /** The lookup chain ends in a transfer request exactly when it decides to
      transfer, and issues no other. */
  lemma RunTransfers(phone: string, callId: string, search: SearchResponse,
                     owner: OwnerResponse, directory: DirectoryResponse)
    ensures var run := RouteCall(phone, callId, search, owner, directory);
      && |run.requests| > 0
      && (forall i :: 0 <= i < |run.requests| - 1 ==> !run.requests[i].TransferPost?)
      && (run.requests[|run.requests| - 1].TransferPost? <==> run.decision.Transfer?)
      && (run.decision.Transfer? ==>
            run.requests[|run.requests| - 1] == TransferPost(callId, run.decision.agentId)
            && run.decision.callId == callId)
  {
  }

  // ---------------------------------------------------------------------------
  // Properties

  /** The webhook is answered with 200 unless the handler throws reading the
      payload, whatever the lookups answer. */
  lemma AcknowledgedUnlessThrows(e: WebhookEvent, search: SearchResponse,
                                 owner: OwnerResponse, directory: DirectoryResponse)
    ensures HandleCallsPost(e, search, owner, directory).ack == Sent(200) <==> !HandlerThrows(e)
    ensures HandleCallsPost(e, search, owner, directory).ack == Sent(200)
         || HandleCallsPost(e, search, owner, directory).ack == Threw
  {
  }

  /** A lookup is issued exactly when the event is a new inbound call; any
      other event or direction is answered without lookup or transfer. */
  lemma LookupsOnlyForInboundCalls(e: WebhookEvent, search: SearchResponse,
                                   owner: OwnerResponse, directory: DirectoryResponse)
    ensures HandleCallsPost(e, search, owner, directory).requests != [] <==> IsRoutedCall(e)
    ensures !IsRoutedCall(e) ==> HandleCallsPost(e, search, owner, directory).decision.Abort?
  {
  }

  /** The contact search filters on the caller number with all whitespace
      removed. */
  lemma SearchUsesNormalisedNumber(e: WebhookEvent, search: SearchResponse,
                                   owner: OwnerResponse, directory: DirectoryResponse)
    requires IsRoutedCall(e)
    ensures HandleCallsPost(e, search, owner, directory).requests[0]
         == ContactSearch(StripWhitespace(e.data.value.rawDigits.s))
    ensures NoWhitespace(HandleCallsPost(e, search, owner, directory).requests[0].phone)
  {
  }

  /** Requests follow the pipeline's stages in order: the i-th request is
      always issued by stage i, so no stage runs twice or out of turn. */
  lemma RequestsFollowStages(e: WebhookEvent, search: SearchResponse,
                             owner: OwnerResponse, directory: DirectoryResponse)
    ensures |HandleCallsPost(e, search, owner, directory).requests| <= 4
    ensures forall i :: 0 <= i < |HandleCallsPost(e, search, owner, directory).requests| ==>
      HandleCallsPost(e, search, owner, directory).requests[i].Stage() == i
  {
  }

  /** An empty search result stops the chain after the search. */
  lemma EmptySearchAborts(e: WebhookEvent, owner: OwnerResponse, directory: DirectoryResponse)
    requires IsRoutedCall(e)
    ensures HandleCallsPost(e, SearchResults([]), owner, directory)
         == Outcome(Sent(200), [ContactSearch(StripWhitespace(e.data.value.rawDigits.s))],
                    Abort(ContactNotFound))
  {
  }

  /** Only the first search result matters. */
  lemma OnlyFirstContactUsed(e: WebhookEvent, a: seq<Contact>, b: seq<Contact>,
                             owner: OwnerResponse, directory: DirectoryResponse)
    requires |a| > 0 && |b| > 0 && a[0] == b[0]
    ensures HandleCallsPost(e, SearchResults(a), owner, directory)
         == HandleCallsPost(e, SearchResults(b), owner, directory)
  {
  }

  /** An owner id that is exactly `null` stops the chain before the owner fetch. */
  lemma NullOwnerAborts(e: WebhookEvent, results: seq<Contact>,
                        owner: OwnerResponse, directory: DirectoryResponse)
    requires IsRoutedCall(e)
    requires |results| > 0 && results[0].ownerId == Null
    ensures HandleCallsPost(e, SearchResults(results), owner, directory).requests
         == [ContactSearch(StripWhitespace(e.data.value.rawDigits.s))]
    ensures HandleCallsPost(e, SearchResults(results), owner, directory).decision
         == Abort(OwnerNotAssigned)
  {
  }

  /** A missing owner id is not rejected: it is fetched as `/owners/undefined`. */
  lemma MissingOwnerIdIsFetched(e: WebhookEvent, results: seq<Contact>,
                                owner: OwnerResponse, directory: DirectoryResponse)
    requires IsRoutedCall(e)
    requires |results| > 0 && results[0].ownerId == Undefined
    ensures HandleCallsPost(e, SearchResults(results), owner, directory).requests[1]
         == OwnerFetch("undefined")
  {
  }

  /** When no directory user has the owner's email, the chain stops after the
      directory fetch and nothing is transferred. */
  lemma NoMatchingAgentAborts(e: WebhookEvent, search: SearchResponse,
                              owner: OwnerResponse, users: seq<User>)
    requires owner.OwnerRecord? && NoMatch(users, owner.email)
    ensures HandleCallsPost(e, search, owner, Listing(users)).decision.Abort?
    ensures TransferCount(HandleCallsPost(e, search, owner, Listing(users)).requests) == 0
    ensures IsRoutedCall(e) && search.SearchResults? && |search.results| > 0
            && search.results[0].ownerId != Null ==>
      && HandleCallsPost(e, search, owner, Listing(users)).decision == Abort(AgentNotFound)
      && HandleCallsPost(e, search, owner, Listing(users)).requests
         == [ContactSearch(StripWhitespace(e.data.value.rawDigits.s)),
             OwnerFetch(OwnerPath(search.results[0])), DirectoryFetch]
  {
    TransferExactlyOnce(e, search, owner, Listing(users));
  }

  /** A first match that fails either availability flag is not transferred to. */
  lemma UnavailableAgentAborts(e: WebhookEvent, search: SearchResponse, owner: OwnerResponse,
                               users: seq<User>, i: int)
    requires IsRoutedCall(e) && search.SearchResults? && |search.results| > 0
    requires search.results[0].ownerId != Null && owner.OwnerRecord?
    requires IsFirstMatch(users, owner.email, i)
    requires !users[i].available || users[i].availabilityStatus != "available"
    ensures HandleCallsPost(e, search, owner, Listing(users)).decision == Abort(AgentUnavailable)
    ensures TransferCount(HandleCallsPost(e, search, owner, Listing(users)).requests) == 0
  {
    TransferExactlyOnce(e, search, owner, Listing(users));
  }

  /** The call is transferred to `agentId` exactly when every stage succeeds
      and `agentId` belongs to the first directory user with the owner's email,
      who passes both availability checks. */
  lemma TransferIff(e: WebhookEvent, search: SearchResponse, owner: OwnerResponse,
                    directory: DirectoryResponse, callId: string, agentId: string)
    ensures HandleCallsPost(e, search, owner, directory).decision == Transfer(callId, agentId)
        <==> TransfersTo(e, search, owner, directory, callId, agentId)
  {
  }

  /** A transfer is requested once, as the last request, with the webhook's
      call id and the decided agent; an abort requests none. */
  lemma TransferExactlyOnce(e: WebhookEvent, search: SearchResponse,
                            owner: OwnerResponse, directory: DirectoryResponse)
    ensures var o := HandleCallsPost(e, search, owner, directory);
      TransferCount(o.requests) == (if o.decision.Transfer? then 1 else 0)
    ensures var o := HandleCallsPost(e, search, owner, directory);
      o.decision.Transfer? ==>
        && o.requests[|o.requests| - 1] == TransferPost(o.decision.callId, o.decision.agentId)
        && e.data.Some? && o.decision.callId == e.data.value.id
  {
    var o := HandleCallsPost(e, search, owner, directory);
    if Classify(e).Inbound? {
      var Inbound(raw, callId) := Classify(e);
      RunTransfers(StripWhitespace(raw), callId, search, owner, directory);
      var n := |o.requests|;
      assert o.requests == o.requests[..n - 1] + [o.requests[n - 1]];
      NoTransferCounted(o.requests[..n - 1]);
      TransferCountAppend(o.requests[..n - 1], [o.requests[n - 1]]);
      assert TransferCount([o.requests[n - 1]]) == (if o.decision.Transfer? then 1 else 0);
    }
  }
}
