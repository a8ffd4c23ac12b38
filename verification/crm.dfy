/** The HubSpot side of the lookup chain: the contact search by phone number
    and the owner record (index.js lines 23-75, 165-186). */
module Crm {
  import opened JsValues

  /** One contact of the search result, with the two properties requested. */
  datatype Contact = Contact(firstName: Prop, ownerId: Prop)

  /** The contact search as the handler receives it. Any transport error,
      non-2xx answer or unreadable body is `SearchUnreachable`: `getContact`
      then resolves to `undefined`. */
  datatype SearchResponse = SearchUnreachable | SearchResults(results: seq<Contact>)

  /** The owner record after `JSON.parse`; a failed request or a body that
      does not parse is `OwnerUnreachable`. */
  datatype OwnerResponse = OwnerUnreachable | OwnerRecord(email: Prop)

  /** What the handler makes of the contact search. */
  datatype ContactLookup =
    | LookupFailed            // `data.results` is read on `undefined`
    | NotFound                // "User not found on Hubspot"
    | OwnerMissing            // "User has no owner assigned on Hubspot"
    | Found(contact: Contact) // the first result, with an owner id that is not `null`

  /** Only the first result is consulted, and only an owner id that is
      exactly `null` stops the chain: a missing owner id goes on to the owner
      lookup. */
  function ResolveContact(response: SearchResponse): (r: ContactLookup)
    ensures r.LookupFailed? <==> response.SearchUnreachable?
    ensures r.NotFound? <==> response == SearchResults([])
    ensures r.OwnerMissing? <==>
      response.SearchResults? && |response.results| > 0 && response.results[0].ownerId == Null
    ensures r.Found? <==>
      response.SearchResults? && |response.results| > 0 && response.results[0].ownerId != Null
    ensures r.Found? ==> r.contact == response.results[0]
  {
    match response
    case SearchUnreachable => LookupFailed
    case SearchResults(results) =>
      if |results| == 0 then NotFound
      else if results[0].ownerId == Null then OwnerMissing
      else Found(results[0])
  }

  /** The path segment of the owner request, `/crm/v3/owners/${ownerId}`. */
  function OwnerPath(c: Contact): string
  {
    TemplateText(c.ownerId)
  }
}
