/** The ClusterClaim reconciler's methods, each proved against its function on the store. */
module ClaimReconcilers {
  import opened Api
  import opened Store
  import opened ApiServers
  import opened Claiming

  /** The fetched claim that the reconciler edits in place. */
  class ClusterClaim {
    const key: Key
    const read: Claim
    var phase: string
    var reason: string

    function Value(): Claim
      reads this
    {
      read.(phase := phase, reason := reason)
    }

    constructor (key: Key, c: Claim)
      ensures this.key == key && read == c && Value() == c
    {
      this.key, read := key, c;
      phase, reason := c.phase, c.reason;
    }
  }

  class ClusterClaimReconciler {
    const api: ApiServer
    const settings: Settings

    constructor (api: ApiServer, settings: Settings)
      ensures this.api == api && this.settings == settings
    {
      this.api, this.settings := api, settings;
    }

    method Reconcile(key: Key) returns (answer: Answer)
      requires api.Valid()
      modifies api
      ensures api.Valid() && (api.State(), answer) == ReconcileClaim(old(api.State()), key, settings)
    {
      hide GetClaim, SendClaim, Claiming.CreateClusterManager;
      var r := api.GetClaim(key);
      if r.NotFound? {
        return Returned(ZERO, false);
      } else if r.Failed? {
        return Returned(ZERO, true);
      }
      var claim := new ClusterClaim(key, r.value);
      if !settings.autoAdmit {
        if claim.phase == "" {
          claim.phase := CLAIM_AWAITING;
          claim.reason := "Waiting for amdin approval";
          var ok := api.UpdateClaimStatus(key, claim.Value());
          if !ok {
            return Returned(ZERO, true);
          }
        } else if claim.phase == CLAIM_AWAITING {
          return Returned(ZERO, false);
        }
      }
      if claim.phase == CLAIM_APPROVED {
        var ok := CreateClusterManager(key, claim.Value());
        if !ok {
          return Returned(REQUEUE, false);
        }
        return Returned(ZERO, false);
      }
      return Returned(ZERO, false);
    }

    method CreateClusterManager(claim: Key, c: Claim) returns (ok: bool)
      requires api.Valid()
      modifies api
      ensures api.Valid()
      ensures (api.State(), ok) == Claiming.CreateClusterManager(old(api.State()), claim, c, settings.domain)
    {
      var key := ManagerKey(claim, c);
      var r := api.GetManager(key);
      if r.NotFound? {
        var clm := NewManager(claim, c, settings.domain);
        ok := api.Submit(key, clm);
        if !ok {
          return false;
        }
      } else if r.Failed? {
        return false;
      }
      return true;
    }

    /** Watch on the removal of ClusterManagers, with its event filter. */
    method RequeueClusterClaimForClusterManager(key: Key, clm: Manager)
      requires api.Valid()
      modifies api
      ensures api.Valid() && api.State() == OnManagerRemoved(old(api.State()), key, clm)
    {
      if clm.Type() != TYPE_CREATED {
        return;
      }
      var claim := ClaimOf(key, clm);
      var r := api.GetClaim(claim);
      if !r.Found? {
        return;
      }
      var cc := new ClusterClaim(claim, r.value);
      if cc.phase != CLAIM_APPROVED {
        return;
      }
      cc.phase := CLAIM_CLUSTER_DELETED;
      cc.reason := "Cluster가 삭제되었습니다.";
      var _ := api.UpdateClaimStatus(claim, cc.Value());
    }
  }
}
