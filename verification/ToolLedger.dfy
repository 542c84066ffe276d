/** The tool call ledger: a row is claimed once, then completed once. */
module ToolLedger {
  import opened Common
  import opened Interrupts

  /** The request digest hashes these fields, so they stand for it. */
  datatype Digest = Digest(
    session: nat, tool: ToolName, arguments: string, expectedRevision: int, contextDigest: nat, toolset: nat)

  /** The stored and returned observations the broker builds. */
  datatype Response =
    | Rejected(summary: string)
    | InProgress
    | NeedsConfirmation(tool: ToolName, interrupt: ToolCallKey)
    | NeedsAuthorization(tool: ToolName, interrupt: ToolCallKey)
    | ToolCompleted(observation: string)
    | ToolFailed
    | ToolCancelled

  /** execution_state is completed exactly when there is a response. */
  datatype Row = Row(digest: Digest, response: Option<Response>)

  type Ledger = map<ToolCallKey, Row>

  datatype ClaimState = Claimed | Executing | Completed(response: Response)

  /** claim_tool_call. */
  function Claim(ledger: Ledger, key: ToolCallKey, digest: Digest): Outcome<Ledger, ClaimState, Error> {
    if key !in ledger then Done(ledger[key := Row(digest, None)], Claimed)
    else if ledger[key].digest != digest then Raised(Conflict)
    else if ledger[key].response.Some? then Done(ledger, Completed(ledger[key].response.value))
    else Done(ledger, Executing)
  }

  /** complete_tool_call: the answer is what the ledger holds from then on. */
  function Complete(ledger: Ledger, key: ToolCallKey, digest: Digest, response: Response): Outcome<Ledger, Response, Error> {
    if key !in ledger || ledger[key].digest != digest then Raised(Conflict)
    else if ledger[key].response.Some? then Done(ledger, ledger[key].response.value)
    else Done(ledger[key := Row(digest, Some(response))], response)
  }
}
