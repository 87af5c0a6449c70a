/** The main-turn lease store: at most one request at a time owns a conversation's key. */
module Lease {
  import opened Json

  type Chain = string

  datatype LeaseState =
    | InFlight
    | CompletedCommitted
    | ClientAbortedBeforeFirstEvent
    | ClientAbortedAfterVisibleOutput
    | BackendFailedBeforeCommit
    | CommitSuppressedAfterAbort

  predicate AllowsCommit(s: LeaseState) {
    s == InFlight
  }

  datatype Lease = Lease(requestId: string, previousResponse: Option<string>, chain: Option<Chain>, state: LeaseState)

  type Leases = map<string, Lease>

  /** None when acquired; otherwise the lease that is in the way. */
  datatype Acquired = Acquired | Busy(requestId: string, previousResponse: string, chain: Option<Chain>)

  datatype Rejection =
    | Missing
    | OtherRequest
    | NotInFlight(state: LeaseState)
    | ChainMismatch
    | ChainGone
    | ChainUnpromoted

  predicate Owns(leases: Leases, key: string, requestId: string) {
    key in leases && leases[key].requestId == requestId
  }

  function Acquire(leases: Leases, key: string, requestId: string, previousResponse: Option<string>): Leases {
    if key in leases then leases else leases[key := Lease(requestId, previousResponse, None, InFlight)]
  }

  /** Every transition that is accepted ends the lease. */
  function Commit(leases: Leases, key: string, requestId: string, transition: LeaseState): Leases {
    if !Owns(leases, key, requestId) then leases
    else if transition == CompletedCommitted && !AllowsCommit(leases[key].state) then leases
    else leases - {key}
  }

  function Release(leases: Leases, key: string, requestId: string): Leases {
    if Owns(leases, key, requestId) then leases - {key} else leases
  }

  function Promote(leases: Leases, key: string, requestId: string, chain: Option<Chain>): Leases {
    if chain.None? || !Owns(leases, key, requestId) || !AllowsCommit(leases[key].state) then leases
    else leases[key := leases[key].(chain := chain)]
  }

  /** None when the lease may commit. */
  function Validate(leases: Leases, key: string, requestId: string, chain: Option<Chain>): Option<Rejection> {
    if key !in leases then Some(Missing)
    else if leases[key].requestId != requestId then Some(OtherRequest)
    else if !AllowsCommit(leases[key].state) then Some(NotInFlight(leases[key].state))
    else if leases[key].chain == chain then None
    else if leases[key].chain.Some? && chain.Some? then Some(ChainMismatch)
    else if chain.None? then Some(ChainGone)
    else Some(ChainUnpromoted)
  }

  class LeaseStore {
    var leases: Leases

    constructor ()
      ensures leases == map[]
    {
      leases := map[];
    }

    method AcquireLease(key: string, requestId: string, previousResponse: Option<string>) returns (r: Acquired)
      modifies this
      ensures leases == Acquire(old(leases), key, requestId, previousResponse)
      ensures r.Acquired? <==> key !in old(leases)
      ensures r.Acquired? ==> Owns(leases, key, requestId)
      ensures r.Busy? ==> r.requestId == old(leases)[key].requestId && r.chain == old(leases)[key].chain
    {
      if key in leases {
        var existing := leases[key];
        return Busy(existing.requestId, if existing.previousResponse.Some? then existing.previousResponse.value
          else "", existing.chain);
      }
      leases := leases[key := Lease(requestId, previousResponse, None, InFlight)];
      return Acquired;
    }

    method CommitLease(key: string, requestId: string, transition: LeaseState) returns (error: Option<Rejection>)
      modifies this
      ensures leases == Commit(old(leases), key, requestId, transition)
      ensures error.None? <==> leases != old(leases)
      ensures error.None? ==> Owns(old(leases), key, requestId) && key !in leases
    {
      if key !in leases {
        return Some(Missing);
      }
      var existing := leases[key];
      if existing.requestId != requestId {
        return Some(OtherRequest);
      }
      if transition == CompletedCommitted && !AllowsCommit(existing.state) {
        return Some(NotInFlight(existing.state));
      }
      leases := leases[key := existing.(state := transition)];
      leases := leases - {key};
      return None;
    }

    method ReleaseLease(key: string, requestId: string)
      modifies this
      ensures leases == Release(old(leases), key, requestId)
      ensures !Owns(leases, key, requestId)
    {
      if key in leases && leases[key].requestId == requestId {
        leases := leases - {key};
      }
    }

    method PromoteWebSocketChain(key: string, requestId: string, chain: Option<Chain>) returns (ok: bool)
      modifies this
      ensures leases == Promote(old(leases), key, requestId, chain)
      ensures ok <==> chain.None? || (Owns(old(leases), key, requestId) && AllowsCommit(old(leases)[key].state))
      ensures ok && chain.Some? ==> Owns(leases, key, requestId) && leases[key].chain == chain
    {
      if chain.None? {
        return true;
      }
      if key !in leases {
        return false;
      }
      if leases[key].requestId != requestId {
        return false;
      }
      if !AllowsCommit(leases[key].state) {
        return false;
      }
      leases := leases[key := leases[key].(chain := chain)];
      return true;
    }

    method ValidateForCommit(key: string, requestId: string, chain: Option<Chain>) returns (r: Option<Rejection>)
      ensures r == Validate(leases, key, requestId, chain)
      ensures r.None? <==> Owns(leases, key, requestId) && AllowsCommit(leases[key].state) && leases[key].chain == chain
    {
      if key !in leases {
        return Some(Missing);
      }
      var existing := leases[key];
      if existing.requestId != requestId {
        return Some(OtherRequest);
      }
      if !AllowsCommit(existing.state) {
        return Some(NotInFlight(existing.state));
      }
      match (existing.chain, chain) {
        case (Some(held), Some(now)) =>
          r := if held == now then None else Some(ChainMismatch);
        case (Some(_), None) =>
          r := Some(ChainGone);
        case (None, Some(_)) =>
          r := Some(ChainUnpromoted);
        case (None, None) =>
          r := None;
      }
    }
  }
}
