// internal/conversion/state_repository.go: compare-and-swap transitions of one
// conversion request row. Time is a number of seconds.
module ConversionStore {
  import opened Wrappers
  import opened Text

  datatype Status = Pending | Processing | Succeeded | FailedRetryable | FailedFinal

  datatype FailureCode = QueryRequired | ChannelRejected | InvalidResult

  datatype Error = Invalid | NotFound | StateConflict | Unavailable | NotEnabled | PositionClosed | NotReady
    | PreviewMissing | Expired | PriceChanged | IdempotencyConflict

  datatype Record = Record(
    id: string, ownerUserId: string, positionId: string, previewId: string, trackingId: string, scene: string,
    status: Status, version: nat, attemptCount: nat, leaseExpiresAt: Option<int>,
    channelRequestId: Option<string>, failureCode: Option<FailureCode>, linkUrl: Option<string>)

  type Table = map<string, Record>

  // Owners whose membership, and (position, owner) pairs whose position, is ENABLED.
  datatype Eligible = Eligible(profiles: set<string>, positions: set<(string, string)>)

  type Outcome = Result<Record, Error>

  const MAX_LEASE := 5 * 60
  const LEASE := 60

  predicate Terminal(r: Record)
  {
    r.status == Succeeded || r.status == FailedFinal
  }

  predicate Holds(rows: Table, id: string, version: int, allowed: set<Status>)
  {
    id in rows && rows[id].version == version && rows[id].status in allowed
  }

  // The row must also carry this channel request ID; a row without one never does.
  predicate HoldsRequest(rows: Table, id: string, channelRequestId: string, version: int, allowed: set<Status>)
  {
    Holds(rows, id, version, allowed) && rows[id].channelRequestId == Some(channelRequestId)
  }

  predicate Admits(eligible: Eligible, r: Record)
  {
    r.ownerUserId in eligible.profiles && (r.positionId, r.ownerUserId) in eligible.positions
  }

  // Results of the operations as functions of the table. A refused operation
  // leaves the table as it was.

  function WithClaim(r: Record, expires: int): Record
  {
    r.(status := Processing, channelRequestId := Some(r.id), attemptCount := r.attemptCount + 1,
       leaseExpiresAt := Some(expires), version := r.version + 1)
  }

  function ClaimSpec(rows: Table, eligible: Eligible, id: string, version: int, lease: int, now: int): (Outcome, Table)
  {
    if !ValidText(id, 128) || version < 1 || lease <= 0 || lease > MAX_LEASE then (Err(Invalid), rows)
    else if !Holds(rows, id, version, {Pending}) || !Admits(eligible, rows[id]) then (Err(StateConflict), rows)
    else var next := WithClaim(rows[id], now + lease); (Ok(next), rows[id := next])
  }

  function MarkUncertainSpec(rows: Table, id: string, channelRequestId: string, version: int): (Outcome, Table)
  {
    if !ValidText(id, 128) || channelRequestId != id || version < 1 then (Err(Invalid), rows)
    else if !HoldsRequest(rows, id, channelRequestId, version, {Processing}) then (Err(StateConflict), rows)
    else
      var next := rows[id].(status := FailedRetryable, leaseExpiresAt := None, failureCode := Some(QueryRequired),
                            version := rows[id].version + 1);
      (Ok(next), rows[id := next])
  }

  function MarkFinalSpec(rows: Table, id: string, channelRequestId: string, version: int, code: FailureCode): (Outcome, Table)
  {
    if !ValidText(id, 128) || channelRequestId != id || version < 1 || code == QueryRequired then (Err(Invalid), rows)
    else if !HoldsRequest(rows, id, channelRequestId, version, {Processing, FailedRetryable}) then (Err(StateConflict), rows)
    else
      var next := rows[id].(status := FailedFinal, leaseExpiresAt := None, failureCode := Some(code),
                            version := rows[id].version + 1);
      (Ok(next), rows[id := next])
  }

  function RejectPendingSpec(rows: Table, id: string, version: int): (Outcome, Table)
  {
    if !ValidText(id, 128) || version < 1 then (Err(Invalid), rows)
    else if !Holds(rows, id, version, {Pending}) then (Err(StateConflict), rows)
    else
      var next := rows[id].(status := FailedFinal, channelRequestId := Some(id), failureCode := Some(InvalidResult),
                            version := rows[id].version + 1);
      (Ok(next), rows[id := next])
  }

  function MarkSucceededSpec(rows: Table, safe: string -> bool, id: string, channelRequestId: string, version: int,
      link: string): (Outcome, Table)
  {
    if !ValidText(id, 128) || channelRequestId != id || version < 1 || !safe(link) then (Err(Invalid), rows)
    else if !HoldsRequest(rows, id, channelRequestId, version, {Processing, FailedRetryable}) then (Err(StateConflict), rows)
    else
      var next := rows[id].(status := Succeeded, leaseExpiresAt := None, failureCode := None, linkUrl := Some(link),
                            version := rows[id].version + 1);
      (Ok(next), rows[id := next])
  }

  // Which rows RecoveryCandidates selects.
  predicate NeedsRecovery(r: Record, now: int)
  {
    r.status == FailedRetryable
    || (r.status == Processing && r.leaseExpiresAt.Some? && r.leaseExpiresAt.value <= now)
  }
}
