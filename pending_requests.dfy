/** Transactional view of the pending requests of a neighbor
    (src/networker/messenger/pending_requests.rs): changes go to staged copies
    of the two request maps, and `cancel` leaves the underlying maps as they
    were when the transaction began. */
module PendingRequests {
  import opened Wrappers
  import opened MachineInts
  import opened Identity

  /** A request forwarded to or from a neighbor; only its id is read here. */
  datatype PendingNeighborRequest = PendingNeighborRequest(requestId: Uid, content: seq<byte>)

  /** A map whose changes are staged until they are committed or cancelled. */
  class TransHashMapMut<K(==), V> {
    /** The map as it was when the transaction began. */
    const original: map<K, V>
    /** The map as the transaction sees it. */
    var staged: map<K, V>

    constructor(m: map<K, V>)
      ensures original == m && staged == m
    {
      original := m;
      staged := m;
    }

    function GetHmap(): map<K, V>
      reads this
    {
      staged
    }

    /** Sets `k` to `v`; returns the value it replaced. */
    method Insert(k: K, v: V) returns (prev: Option<V>)
      modifies this
      ensures staged == old(staged)[k := v]
      ensures prev == if k in old(staged) then Some(old(staged)[k]) else None
    {
      prev := if k in staged then Some(staged[k]) else None;
      staged := staged[k := v];
    }

    /** Deletes `k`; returns the value it had. */
    method Remove(k: K) returns (prev: Option<V>)
      modifies this
      ensures staged == old(staged) - {k}
      ensures prev == if k in old(staged) then Some(old(staged)[k]) else None
    {
      prev := if k in staged then Some(staged[k]) else None;
      staged := staged - {k};
    }

    /** The map to keep when the transaction is cancelled. */
    method Cancel() returns (m: map<K, V>)
      ensures m == original
    {
      m := original;
    }
  }

  class PendingRequests {
    var pendingLocalRequests: map<Uid, PendingNeighborRequest>
    var pendingRemoteRequests: map<Uid, PendingNeighborRequest>

    constructor(local: map<Uid, PendingNeighborRequest>, remote: map<Uid, PendingNeighborRequest>)
      ensures pendingLocalRequests == local && pendingRemoteRequests == remote
    {
      pendingLocalRequests := local;
      pendingRemoteRequests := remote;
    }
  }

  /** `TransPendingRequests` has no commit: staged changes never reach the
      borrowed `PendingRequests`, so its maps only change through `Cancel`,
      which rewrites them with the values they already hold. */
  class TransPendingRequests {
    /** The pending requests this transaction borrows. */
    const pendingRequests: PendingRequests
    const tpLocalRequests: TransHashMapMut<Uid, PendingNeighborRequest>
    const tpRemoteRequests: TransHashMapMut<Uid, PendingNeighborRequest>

    /** The two staged maps are separate objects, each started from the
        borrowed map of its side. */
    ghost predicate Valid()
      reads this, pendingRequests
    {
      && tpLocalRequests != tpRemoteRequests
      && tpLocalRequests.original == pendingRequests.pendingLocalRequests
      && tpRemoteRequests.original == pendingRequests.pendingRemoteRequests
    }

    /** `TransPendingRequests::new`: both staged maps start as the borrowed maps. */
    constructor(pendingRequests: PendingRequests)
      ensures Valid()
      ensures this.pendingRequests == pendingRequests
      ensures fresh(tpLocalRequests) && fresh(tpRemoteRequests)
      ensures tpLocalRequests.staged == pendingRequests.pendingLocalRequests
      ensures tpRemoteRequests.staged == pendingRequests.pendingRemoteRequests
    {
      this.pendingRequests := pendingRequests;
      tpLocalRequests := new TransHashMapMut(pendingRequests.pendingLocalRequests);
      tpRemoteRequests := new TransHashMapMut(pendingRequests.pendingRemoteRequests);
    }

    /** Discards the staged changes of both maps: the borrowed pending
        requests are what they were when the transaction began. */
    method Cancel()
      requires Valid()
      modifies pendingRequests
      ensures pendingRequests.pendingLocalRequests == tpLocalRequests.original
      ensures pendingRequests.pendingRemoteRequests == tpRemoteRequests.original
      ensures pendingRequests.pendingLocalRequests == old(pendingRequests.pendingLocalRequests)
      ensures pendingRequests.pendingRemoteRequests == old(pendingRequests.pendingRemoteRequests)
    {
      var local := tpLocalRequests.Cancel();
      var remote := tpRemoteRequests.Cancel();
      pendingRequests.pendingLocalRequests := local;
      pendingRequests.pendingRemoteRequests := remote;
    }

    /** Adds a remote request unless its id is already pending remotely. */
    method AddPendingRemoteRequest(pendingRequest: PendingNeighborRequest) returns (added: bool)
      requires Valid()
      modifies tpRemoteRequests
      ensures Valid()
      ensures added <==> pendingRequest.requestId !in old(tpRemoteRequests.staged)
      ensures !added ==> tpRemoteRequests.staged == old(tpRemoteRequests.staged)
      ensures added ==> tpRemoteRequests.staged == old(tpRemoteRequests.staged)[pendingRequest.requestId := pendingRequest]
      ensures tpRemoteRequests.staged[pendingRequest.requestId] == (if added then pendingRequest else old(tpRemoteRequests.staged)[pendingRequest.requestId])
      ensures unchanged(tpLocalRequests)
    {
      if pendingRequest.requestId in tpRemoteRequests.GetHmap() {
        return false;
      } else {
        var _ := tpRemoteRequests.Insert(pendingRequest.requestId, pendingRequest);
        return true;
      }
    }

    /** Removes a local request; returns it if it was pending. */
    method RemoveLocalPendingRequest(uid: Uid) returns (removed: Option<PendingNeighborRequest>)
      requires Valid()
      modifies tpLocalRequests
      ensures Valid()
      ensures removed == if uid in old(tpLocalRequests.staged) then Some(old(tpLocalRequests.staged)[uid]) else None
      ensures uid !in tpLocalRequests.staged
      ensures tpLocalRequests.staged == old(tpLocalRequests.staged) - {uid}
      ensures unchanged(tpRemoteRequests)
    {
      removed := tpLocalRequests.Remove(uid);
    }
  }
}
