/** The governance "smart contract" (`SmartContract`): a registry of
    clients keyed by id with a quality threshold on registration, soft
    deactivation without reactivation, the quorum check that gates
    aggregation, and an append-only access log. */
module Governance {
  import opened Wrappers

  datatype ClientRecord = ClientRecord(
    organization: string,
    dataSize: int,
    dataQuality: real,
    registeredAt: string,
    active: bool)

  datatype AccessEntry = AccessEntry(timestamp: string, clientId: string, action: string, success: bool)

  /** Between two registry states no client went back from inactive to
      active, and no client disappeared. */
  ghost predicate NoReactivation(before: map<string, ClientRecord>, after: map<string, ClientRecord>)
  {
    forall id :: id in before ==> id in after && (!before[id].active ==> !after[id].active)
  }

  /** The quorum rule of `can_aggregate`: enough ids (duplicates counted)
      and each of them registered and active. */
  predicate Quorum(clients: map<string, ClientRecord>, minClients: int, ids: seq<string>)
  {
    |ids| >= minClients && forall i :: 0 <= i < |ids| ==> ids[i] in clients && clients[ids[i]].active
  }

  /** The ids whose record is active (`get_active_clients`, as a set). */
  function ActiveIds(clients: map<string, ClientRecord>): (r: set<string>)
    ensures forall id :: id in r <==> id in clients && clients[id].active
  {
    set id | id in clients && clients[id].active
  }

  class SmartContract {
    const minClients: int
    const minDataQuality: real
    var clients: map<string, ClientRecord>
    var accessLog: seq<AccessEntry>

    /** `__init__`; the source's defaults are a quorum of 2 and a minimum
        data quality of 0.6 (and `register_client` defaults the quality to
        1.0); here every argument is explicit. */
    constructor (minClients: int, minDataQuality: real)
      ensures this.minClients == minClients && this.minDataQuality == minDataQuality
      ensures clients == map[] && accessLog == []
    {
      this.minClients := minClients;
      this.minDataQuality := minDataQuality;
      clients := map[];
      accessLog := [];
    }

    /** `register_client`: rejects a known id, then a quality below the
        threshold; otherwise inserts an active record. */
    method RegisterClient(clientId: string, organization: string, dataSize: int, dataQuality: real, now: string)
      returns (ok: bool)
      modifies this
      ensures accessLog == old(accessLog)
      ensures clientId in old(clients) ==> !ok && clients == old(clients)
      ensures clientId !in old(clients) && dataQuality < minDataQuality ==> !ok && clients == old(clients)
      ensures clientId !in old(clients) && dataQuality >= minDataQuality ==>
        ok && clients == old(clients)[clientId := ClientRecord(organization, dataSize, dataQuality, now, true)]
      ensures NoReactivation(old(clients), clients)
    {
      if clientId in clients {
        return false;
      }
      if dataQuality < minDataQuality {
        return false;
      }
      clients := clients[clientId := ClientRecord(organization, dataSize, dataQuality, now, true)];
      return true;
    }

    /** `deactivate_client`: clears the active flag of a known client. */
    method DeactivateClient(clientId: string) returns (ok: bool)
      modifies this
      ensures accessLog == old(accessLog)
      ensures ok <==> clientId in old(clients)
      ensures !ok ==> clients == old(clients)
      ensures ok ==> clients == old(clients)[clientId := old(clients)[clientId].(active := false)]
      ensures NoReactivation(old(clients), clients)
    {
      if clientId !in clients {
        return false;
      }
      clients := clients[clientId := clients[clientId].(active := false)];
      return true;
    }

    /** `can_aggregate`: the length test first, then each id in order,
        returning at the first unknown or inactive one. */
    method CanAggregate(participants: seq<string>) returns (ok: bool)
      ensures ok == Quorum(clients, minClients, participants)
    {
      if |participants| < minClients {
        return false;
      }
      var i := 0;
      while i < |participants|
        invariant 0 <= i <= |participants|
        invariant forall k :: 0 <= k < i ==> participants[k] in clients && clients[participants[k]].active
      {
        var id := participants[i];
        if id !in clients {
          return false;
        }
        if !clients[id].active {
          return false;
        }
        i := i + 1;
      }
      return true;
    }

    /** `log_access`: append one entry. */
    method LogAccess(clientId: string, action: string, success: bool, now: string)
      modifies this
      ensures clients == old(clients)
      ensures accessLog == old(accessLog) + [AccessEntry(now, clientId, action, success)]
    {
      accessLog := accessLog + [AccessEntry(now, clientId, action, success)];
    }

    /** `get_client_info`. */
    function GetClientInfo(clientId: string): (r: Option<ClientRecord>)
      reads this
      ensures r.Some? <==> clientId in clients
      ensures r.Some? ==> r.value == clients[clientId]
    {
      if clientId in clients then Some(clients[clientId]) else None
    }

    /** `get_active_clients`. */
    function GetActiveClients(): set<string>
      reads this
    {
      ActiveIds(clients)
    }
  }

  /** The quorum check in terms of the active set: enough ids, all of them
      currently active. */
  lemma QuorumIsActiveSubset(clients: map<string, ClientRecord>, minClients: int, ids: seq<string>)
    ensures Quorum(clients, minClients, ids) <==>
      |ids| >= minClients && (set id | id in ids) <= ActiveIds(clients)
  {
    if |ids| >= minClients && (set id | id in ids) <= ActiveIds(clients) {
      forall i | 0 <= i < |ids| ensures ids[i] in clients && clients[ids[i]].active {
        assert ids[i] in (set id | id in ids);
      }
    }
  }

  /** The length test counts duplicates: one registered, active client
      listed twice meets a quorum of two. */
  lemma DuplicatesMeetQuorum(clients: map<string, ClientRecord>, id: string)
    requires id in clients && clients[id].active
    ensures Quorum(clients, 2, [id, id])
  {
  }

  /** Deactivating a client removes it from the active set and from every
      quorum it takes part in, for good: no later registration or
      deactivation makes it active again. */
  lemma DeactivatedStaysOut(before: map<string, ClientRecord>, after: map<string, ClientRecord>,
                            minClients: int, ids: seq<string>, id: string)
    requires id in before && !before[id].active
    requires NoReactivation(before, after)
    requires id in ids
    ensures id !in ActiveIds(after)
    ensures !Quorum(after, minClients, ids)
  {
    var i :| 0 <= i < |ids| && ids[i] == id;
  }
}
