/** The transfer aggregate: its status graph and the operations that move one transfer along it. */
module TransferDomain {
  import opened Basics

  type TransferId = int

  datatype Status = Pending | Requested | AwaitingApproval | Approved | Settled | Failed

  function ValidTransitions(from: Status): seq<Status> {
    match from
    case Pending => [Requested, Failed]
    case Requested => [AwaitingApproval, Approved, Settled, Failed]
    case AwaitingApproval => [Approved, Settled, Failed]
    case Approved => [Settled, Failed]
    case Settled => []
    case Failed => []
  }

  predicate IsTerminal(s: Status) {
    s == Settled || s == Failed
  }

  predicate CanTransition(from: Status, to: Status) {
    from == to || to in ValidTransitions(from)
  }

  /** The eleven moves of the status graph; staying is always allowed. */
  lemma StatusGraph(from: Status, to: Status)
    ensures CanTransition(from, to) <==>
              || from == to
              || (from, to) in {(Pending, Requested), (Pending, Failed),
                                (Requested, AwaitingApproval), (Requested, Approved), (Requested, Settled),
                                (Requested, Failed), (AwaitingApproval, Approved), (AwaitingApproval, Settled),
                                (AwaitingApproval, Failed), (Approved, Settled), (Approved, Failed)}
    ensures IsTerminal(from) <==> forall s :: CanTransition(from, s) ==> s == from
  {
    assert from == Pending ==> CanTransition(from, Requested);
    assert from == Requested || from == AwaitingApproval || from == Approved ==> CanTransition(from, Settled);
  }

  /** How far along a status is; every real transition climbs. */
  function Rank(s: Status): nat {
    match s
    case Pending => 0
    case Requested => 1
    case AwaitingApproval => 2
    case Approved => 3
    case Settled => 4
    case Failed => 4
  }

  /** A status history: starts at Pending and takes one real transition at a time. */
  ghost predicate IsPath(h: seq<Status>) {
    && |h| > 0 && h[0] == Pending
    && forall i :: 0 < i < |h| ==> h[i] != h[i - 1] && CanTransition(h[i - 1], h[i])
  }

  lemma {:induction false} PathClimbs(h: seq<Status>, i: nat, j: nat)
    requires IsPath(h) && i <= j < |h|
    ensures Rank(h[i]) + (j - i) <= Rank(h[j])
  {
    if i < j {
      PathClimbs(h, i, j - 1);
      assert Rank(h[j - 1]) < Rank(h[j]);
    }
  }

  /** Whatever order updates come in, a transfer changes status at most four times, never repeats a status, and a
      terminal status can only be the last one. */
  lemma PathIsShort(h: seq<Status>)
    requires IsPath(h)
    ensures |h| <= 5
    ensures forall i, j :: 0 <= i < j < |h| ==> h[i] != h[j]
    ensures forall i :: 0 <= i < |h| - 1 ==> !IsTerminal(h[i])
    ensures !(Settled in h && Failed in h)
  {
    PathClimbs(h, 0, |h| - 1);
    forall i, j | 0 <= i < j < |h|
      ensures h[i] != h[j] && Rank(h[i]) < 4
    {
      PathClimbs(h, i, j);
      PathClimbs(h, j, |h| - 1);
    }
  }

  // ---------- rows of the transfers table ----------

  datatype TransferParams = TransferParams(
    amount: int, sourceAccountId: string,
    destBankCode: string, destBranchCode: string, destAccountType: string, destAccountNum: string,
    destAccountName: string)

  datatype TransferRow = TransferRow(
    id: TransferId, appRequestId: int, apiKey: int, params: TransferParams,
    status: Status, applyNo: Option<string>, lastError: Option<string>,
    version: nat, createdAt: int, updatedAt: int)

  datatype Error = InvalidTransition | AlreadyExists | NotFound | ConcurrentUpdate | StorageError

  function NewTransferRow(id: TransferId, appRequestId: int, apiKey: int, params: TransferParams,
                          now: int): TransferRow {
    TransferRow(id, appRequestId, apiKey, params, Pending, None, None, 1, now, now)
  }

  function Transitioned(r: TransferRow, to: Status, now: int): Result<TransferRow, Error> {
    if CanTransition(r.status, to) then Ok(r.(status := to, updatedAt := now)) else Err(InvalidTransition)
  }

  function MarkedRequested(r: TransferRow, applyNo: string, now: int): Result<TransferRow, Error> {
    var t :- Transitioned(r, Requested, now);
    Ok(t.(applyNo := Some(applyNo)))
  }

  function MarkedFailed(r: TransferRow, reason: string, now: int): Result<TransferRow, Error> {
    var t :- Transitioned(r, Failed, now);
    Ok(t.(lastError := Some(reason)))
  }

  /** The aggregate in memory.  A refused operation leaves every field as it was. */
  class Transfer {
    const id: TransferId
    const appRequestId: int
    const apiKey: int
    const params: TransferParams
    const createdAt: int
    var status: Status
    var applyNo: Option<string>
    var lastError: Option<string>
    var version: nat
    var updatedAt: int

    function Row(): TransferRow
      reads this
    {
      TransferRow(id, appRequestId, apiKey, params, status, applyNo, lastError, version, createdAt, updatedAt)
    }

    constructor New(id: TransferId, appRequestId: int, apiKey: int, params: TransferParams, now: int)
      ensures Row() == NewTransferRow(id, appRequestId, apiKey, params, now)
      ensures this.id == id && this.appRequestId == appRequestId && this.apiKey == apiKey && this.params == params
      ensures status == Pending && applyNo == None && lastError == None && version == 1 && createdAt == updatedAt == now
    {
      this.id, this.appRequestId, this.apiKey, this.params := id, appRequestId, apiKey, params;
      createdAt, updatedAt, version := now, now, 1;
      status, applyNo, lastError := Pending, None, None;
    }

    constructor FromRow(row: TransferRow)
      ensures Row() == row
      ensures id == row.id && appRequestId == row.appRequestId && apiKey == row.apiKey && params == row.params
      ensures status == row.status && applyNo == row.applyNo && lastError == row.lastError && version == row.version
      ensures createdAt == row.createdAt && updatedAt == row.updatedAt
    {
      id, appRequestId, apiKey, params, createdAt := row.id, row.appRequestId, row.apiKey, row.params, row.createdAt;
      status, applyNo, lastError, version, updatedAt := row.status, row.applyNo, row.lastError, row.version,
          row.updatedAt;
    }

    method Transition(to: Status, now: int) returns (r: Result<(), Error>)
      modifies this`status, this`updatedAt
      ensures match Transitioned(old(Row()), to, now)
              case Ok(row) => r == Ok(()) && Row() == row
              case Err(e) => r == Err(e) && Row() == old(Row())
      ensures r == if CanTransition(old(status), to) then Ok(()) else Err(InvalidTransition)
      ensures if r.Ok? then status == to && updatedAt == now else unchanged(this)
    {
      if !CanTransition(status, to) {
        return Err(InvalidTransition);
      }
      status := to;
      updatedAt := now;
      return Ok(());
    }

    method MarkRequested(no: string, now: int) returns (r: Result<(), Error>)
      modifies this`status, this`updatedAt, this`applyNo
      ensures match MarkedRequested(old(Row()), no, now)
              case Ok(row) => r == Ok(()) && Row() == row
              case Err(e) => r == Err(e) && Row() == old(Row())
      ensures r == if old(status) == Pending || old(status) == Requested then Ok(()) else Err(InvalidTransition)
      ensures if r.Ok? then status == Requested && applyNo == Some(no) && updatedAt == now else unchanged(this)
    {
      r := Transition(Requested, now);
      if r.Ok? {
        applyNo := Some(no);
      }
    }

    method MarkFailed(reason: string, now: int) returns (r: Result<(), Error>)
      modifies this`status, this`updatedAt, this`lastError
      ensures match MarkedFailed(old(Row()), reason, now)
              case Ok(row) => r == Ok(()) && Row() == row
              case Err(e) => r == Err(e) && Row() == old(Row())
      ensures r == if old(status) != Settled then Ok(()) else Err(InvalidTransition)
      ensures if r.Ok? then status == Failed && lastError == Some(reason) && updatedAt == now else unchanged(this)
    {
      r := Transition(Failed, now);
      if r.Ok? {
        lastError := Some(reason);
      }
    }
  }
}
