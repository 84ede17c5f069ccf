/** The responses of the route handlers: a status code and a JSON reply. */
module Http {
  import opened Wrappers

  /**
   * What `ZodError.flatten()` reports: a body that is not an object at all, or
   * the keys whose checks failed, in the order the schema declares them.
   */
  datatype Issues = NotAnObject | FieldIssues(fields: seq<string>)

  datatype Reply =
    | Created(id: string)                                  // { ok: true, id }
    | Linked(referralLink: string, message: Option<string>) // { ok: true, referralLink[, message] }
    | Rejected(issues: Issues)                            // { error: error.flatten() }
    | Failed(error: string)                               // { error: "..." }
    | Sent                                                // { ok: true }
    | Uploaded(urls: seq<string>)                         // { urls }

  datatype Response = Response(status: nat, reply: Reply)

  /** The error messages the routes share; the approval route drops the full stop. */
  const Unexpected: string := "Unexpected server error."
  const UnexpectedBare: string := "Unexpected server error"
  const SaveFailed: string := "Failed to save submission."
  const UpdateFailed: string := "Failed to update approval status"
  const ApprovalSent: string :=
    "Approval email sent with " + "referral link"

  function Ok(reply: Reply): Response { Response(200, reply) }
  function BadRequest(reply: Reply): Response { Response(400, reply) }
  function ServerError(message: string): Response { Response(500, Failed(message)) }
}
