/** The Aircall user directory scan and the availability check
    (`getAgentAircallID`, index.js lines 81-116). */
module Directory {
  import opened JsValues
  import opened Optional

  /** One entry of `body.users`. */
  datatype User = User(id: string, email: Prop, available: bool, availabilityStatus: string)

  /** The directory listing; a failed request, an unparsable body or a body
      without `users` is `DirectoryUnreachable`. */
  datatype DirectoryResponse = DirectoryUnreachable | Listing(users: seq<User>)

  /** What the scan decides about the owner's email. */
  datatype AgentLookup =
    | DirectoryFailed
    | NoAgent                    // "No agent found on Aircall"
    | Unavailable(user: User)    // "Agent not available"
    | Available(agentId: string) // the callback runs with this id

  /** Both flags must agree before a call is transferred. */
  predicate IsAvailable(u: User)
  {
    u.available && u.availabilityStatus == "available"
  }

  /** `i` is the position `users.find(user => user.email === email)` stops at. */
  ghost predicate IsFirstMatch(users: seq<User>, email: Prop, i: int)
  {
    && 0 <= i < |users|
    && users[i].email == email
    && forall j :: 0 <= j < i ==> users[j].email != email
  }

  ghost predicate NoMatch(users: seq<User>, email: Prop)
  {
    forall i :: 0 <= i < |users| ==> users[i].email != email
  }

  /** The position of the first user whose email is strictly equal to `email`. */
  function FindByEmail(users: seq<User>, email: Prop): (r: Option<nat>)
    ensures r.Some? ==> IsFirstMatch(users, email, r.value)
    ensures r.None? <==> NoMatch(users, email)
  {
    if |users| == 0 then None
    else if users[0].email == email then Some(0)
    else match FindByEmail(users[1..], email)
      case None => None
      case Some(i) => Some(i + 1)
  }

  /** There is at most one first match. */
  lemma FirstMatchUnique(users: seq<User>, email: Prop, i: int, k: int)
    requires IsFirstMatch(users, email, i) && IsFirstMatch(users, email, k)
    ensures i == k
  {
  }

  /** Scan the directory for the owner's email, then apply the dual
      availability check to the user found. */
  function ResolveAgent(response: DirectoryResponse, email: Prop): (r: AgentLookup)
    ensures r.DirectoryFailed? <==> response.DirectoryUnreachable?
    ensures r.NoAgent? <==> response.Listing? && NoMatch(response.users, email)
    ensures r.Unavailable? ==>
      response.Listing? &&
      exists i :: IsFirstMatch(response.users, email, i) && !IsAvailable(response.users[i])
                  && response.users[i] == r.user
    ensures r.Available? ==>
      response.Listing? &&
      exists i :: IsFirstMatch(response.users, email, i) && IsAvailable(response.users[i])
                  && response.users[i].id == r.agentId
    ensures (response.Listing? &&
             exists i :: IsFirstMatch(response.users, email, i) && IsAvailable(response.users[i]))
            ==> r.Available?
  {
    match response
    case DirectoryUnreachable => DirectoryFailed
    case Listing(users) =>
      match FindByEmail(users, email)
      case None => NoAgent
      case Some(i) =>
        if IsAvailable(users[i]) then Available(users[i].id) else Unavailable(users[i])
  }
}
