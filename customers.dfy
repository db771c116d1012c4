/**
 * The worker's two lookups against external services, with the service's
 * answer given as an input: `summarize_customer` and `invite_to_slack`.
 */
module Customers {

  /**
   * What `stripe.Customer.retrieve` gives: a customer, or InvalidRequestError.
   * The strings are the attribute values as `'%s'` renders them (a missing
   * description or email is the text "None").
   */
  datatype CustomerLookup = Found(description: string, email: string) | NotFound

  /** `summarize_customer`: the raw id when the lookup fails, otherwise "description (email)". */
  function SummarizeCustomer(customerId: string, lookup: CustomerLookup): (r: string)
    ensures lookup.NotFound? ==> r == customerId
    ensures lookup.Found? ==>
      && |r| == |lookup.description| + |lookup.email| + 3
      && r[..|lookup.description|] == lookup.description
      && r[|lookup.description|..] == " (" + lookup.email + ")"
  {
    match lookup
    case NotFound => customerId
    case Found(description, email) => description + " (" + email + ")"
  }

  /** The answer of Slack's `users.admin.invite` call. */
  datatype InviteResponse = InviteResponse(ok: bool, error: string)

  /** The `InviteStatus` members, or the unrecognised error string the code returns as is. */
  datatype InviteStatus = Successful | AlreadyInvited | AlreadyInTeam | Unrecognized(error: string)

  const AlreadyInvitedError: string := "already_invited"
  const AlreadyInTeamError: string := "already_in_team"

  /** `invite_to_slack`, classifying the response. */
  function InviteToSlack(response: InviteResponse): (r: InviteStatus)
    ensures r == Successful <==> response.ok
    ensures r == AlreadyInvited <==> !response.ok && response.error == AlreadyInvitedError
    ensures r == AlreadyInTeam <==> !response.ok && response.error == AlreadyInTeamError
    ensures r.Unrecognized? <==> !response.ok && response.error != AlreadyInvitedError && response.error != AlreadyInTeamError
    ensures r.Unrecognized? ==> r.error == response.error
  {
    if response.ok then Successful
    else if response.error == AlreadyInvitedError then AlreadyInvited
    else if response.error == AlreadyInTeamError then AlreadyInTeam
    else Unrecognized(response.error)
  }
}
