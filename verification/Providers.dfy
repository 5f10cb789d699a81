/** The three cluster providers: whether the new cluster is ready, and the copy of its
    credentials into the instance's namespace. */
module Providers {
  import opened Conditions
  import opened Applications
  import opened Hub
  import opened Lifecycle
  import opened Client

  /** CreateClusterSecrets. */
  method CreateClusterSecrets(c: ApiClient, url: string, password: string) returns (ok: bool)
    modifies c
    ensures (c.hub, ok) == Lifecycle.CreateClusterSecrets(c.cfg, c.env, old(c.hub), url, password)
  {
    hide Handled;
    var o := c.Call(GetOwnKubeconfig);
    if o != Served {
      return false;
    }
    if c.cfg.Me() !in c.hub.kubeconfigs {
      ok := c.CreateKubeconfigSecret(CreateOwnKubeconfig, url);
      if !ok {
        return false;
      }
    }
    if password != "" {
      o := c.Call(GetOwnPassword);
      if o != Served {
        return false;
      }
      if c.cfg.Me() !in c.hub.passwords {
        ok := c.CreatePasswordSecret(CreateOwnPassword, password);
        return ok;
      }
    }
    ok := true;
  }

  // The credentials are all that is missing.
  method Finish(c: ApiClient, url: string, password: string) returns (r: Readiness)
    modifies c
    ensures (c.hub, r) == WithSecrets(c.cfg, c.env, old(c.hub), url, password)
  {
    var ok := CreateClusterSecrets(c, url, password);
    r := if ok then IsReady else StatusError;
  }

  /** HostedClusterProvider.GetClusterStatus. */
  method HostedClusterStatus(c: ApiClient, p: Provider) returns (r: Readiness)
    requires p.HostedProvider?
    modifies c
    ensures (c.hub, r) == HostedStatus(c.cfg, c.env, p, old(c.hub))
  {
    hide Handled, WithSecrets, LastIsTrue, PoolsReady;
    var v := c.env.provider;
    var o := c.Call(GetProviderObject);
    if o != Served {
      return StatusError;
    }
    var available := LastStatus(v.hosted.conditions);
    if !available {
      return NotReady;
    }
    if !v.hosted.kubeconfigRef {
      return NotReady;
    }
    o := c.Call(GetProviderKubeconfig);
    if o != Served || v.kubeconfig.None? {
      return StatusError;
    }
    var password := "";
    if !v.hosted.idps {
      if !v.hosted.passwordRef {
        return NotReady;
      }
      o := c.Call(GetProviderPassword);
      if o != Served || v.password.None? {
        return StatusError;
      }
      password := v.password.value;
    }
    r := Finish(c, v.kubeconfig.value, password);
    if r != IsReady {
      return r;
    }
    if |p.nodePools| > 0 {
      o := c.Call(ListNodePools);
      if o != Served {
        return StatusError;
      }
      var allReady := NodePoolsReady(v.pools, p.name);
      if !allReady {
        return NotReady;
      }
    }
    r := IsReady;
  }

  // createCDSecrets.
  method CreateCDSecrets(c: ApiClient) returns (r: Readiness)
    modifies c
    ensures (c.hub, r) == DeploymentSecrets(c.cfg, c.env, old(c.hub))
  {
    hide Handled, WithSecrets;
    var v := c.env.provider;
    if !v.deployment.passwordRef || !v.deployment.kubeconfigRef {
      return NotReady;
    }
    var o := c.Call(GetProviderKubeconfig);
    if o != Served || v.kubeconfig.None? {
      return StatusError;
    }
    o := c.Call(GetProviderPassword);
    if o != Served || !v.hasUsername || v.password.None? {
      return StatusError;
    }
    r := Finish(c, v.kubeconfig.value, v.password.value);
  }

  /** ClusterDeploymentProvider.GetClusterStatus: the first readiness condition decides. */
  method ClusterDeploymentStatus(c: ApiClient) returns (r: Readiness)
    modifies c
    ensures (c.hub, r) == DeploymentStatus(c.cfg, c.env, old(c.hub))
  {
    hide Handled, DeploymentSecrets;
    var o := c.Call(GetProviderObject);
    if o != Served {
      return StatusError;
    }
    var cs := c.env.provider.deployment.conditions;
    for i := 0 to |cs|
      invariant FirstIsTrue(cs) == FirstIsTrue(cs[i..])
      invariant c.hub == Handled(c.cfg, c.env, old(c.hub), GetProviderObject)
    {
      assert cs[i..][0] == cs[i] && cs[i..][1..] == cs[i + 1..];
      if cs[i].wanted {
        if cs[i].status == True {
          r := CreateCDSecrets(c);
          return r;
        }
        return NotReady;
      }
    }
    r := NotReady;
  }

  /** ClusterClaimProvider.GetClusterStatus. */
  method ClusterClaimStatus(c: ApiClient) returns (r: Readiness)
    modifies c
    ensures (c.hub, r) == ClaimStatus(c.cfg, c.env, old(c.hub))
  {
    hide Handled, DeploymentSecrets;
    var o := c.Call(GetProviderObject);
    if o != Served {
      return StatusError;
    }
    if !c.env.provider.claimBound {
      return NotReady;
    }
    o := c.Call(GetClaimedDeployment);
    if o != Served {
      return StatusError;
    }
    r := CreateCDSecrets(c);
  }

  method GetStatus(c: ApiClient, p: Provider) returns (r: Readiness)
    modifies c
    ensures (c.hub, r) == GetClusterStatus(c.cfg, c.env, p, old(c.hub))
  {
    hide HostedStatus, DeploymentStatus, ClaimStatus;
    match p {
      case HostedProvider(_, _, _) => r := HostedClusterStatus(c, p);
      case DeploymentProvider(_, _) => r := ClusterDeploymentStatus(c);
      case ClaimProvider(_, _) => r := ClusterClaimStatus(c);
    }
  }
}
