/** Managed clusters of an instance: look-up, creation, import, add-ons. */
module ManagedClusters {
  import opened Conditions
  import opened Applications
  import opened Hub
  import opened Lifecycle
  import opened Client

  /** GetManagedCluster: the labels are the server's business, the prefix is checked here. */
  method GetManagedCluster(c: ApiClient, s: Site) returns (o: Outcome, mc: Option<ManagedCluster>)
    modifies c
    ensures c.hub == Handled(c.cfg, c.env, old(c.hub), s) && o == c.env.reply(s).outcome
    ensures o.Served? ==> mc == FirstCluster(c.cfg.Me(), c.hub.clusters)
  {
    var items;
    o, items := c.ListManagedClusters(s);
    ListedThenPrefixed(c.cfg.Me(), c.hub.clusters);
    if o != Served {
      return o, None;
    }
    for i := 0 to |items|
      invariant FirstPrefixed(items) == FirstPrefixed(items[i..])
    {
      assert items[i..][0] == items[i] && items[i..][1..] == items[i + 1..];
      if HasClusterPrefix(items[i].name) {
        return o, Some(items[i]);
      }
    }
    mc := None;
  }

  // The loop that copies the template's labels over the standard ones.
  method MergeLabels(base: map<LabelKey, string>, extra: map<LabelKey, string>) returns (labels: map<LabelKey, string>)
    ensures labels == base + extra
  {
    labels := base;
    var keys := extra.Keys;
    while keys != {}
      invariant keys <= extra.Keys
      invariant labels == base + map k | k in extra.Keys - keys :: extra[k]
      decreases |keys|
    {
      var k :| k in keys;
      labels := labels[k := extra[k]];
      keys := keys - {k};
    }
    assert (map k | k in extra.Keys :: extra[k]) == extra;
  }

  /** ocm.CreateManagedCluster. */
  method CreateManagedCluster(c: ApiClient) returns (ok: bool)
    modifies c
    ensures (c.hub, ok) == Lifecycle.CreateManagedCluster(c.cfg, c.env, old(c.hub))
  {
    hide Handled, FirstCluster, NameTaken;
    var o, mc := GetManagedCluster(c, ListBeforeCreate);
    if o != Served {
      return false;
    }
    if mc.Some? {
      return true;
    }
    var labels := MergeLabels(
      map[CTIName := c.cfg.Me().name, CTINamespace := c.cfg.Me().namespace, Cloud := "auto-detect",
          Vendor := "auto-detect"],
      c.cfg.templateLabels);
    ok := c.CreateCluster(Site.CreateCluster, "cluster-", labels);
  }

  /** ocm.ImportManagedCluster; the import condition is that of the cluster first listed. */
  method ImportManagedCluster(c: ApiClient) returns (ok: bool, imported: bool)
    modifies c
    ensures (c.hub, ok) == EnsureImportSecret(c.cfg, c.env, old(c.hub))
    ensures ok ==> imported == LastIsTrue(c.env.importConditions)
  {
    hide Handled, FirstCluster, LastIsTrue;
    imported := false;
    var o, mc := GetManagedCluster(c, ListForImport);
    if o != Served || mc.None? {
      return false, false;
    }
    var url;
    o, url := c.GetKubeconfig(GetKubeconfigForImport);
    if url.None? {
      return false, false;
    }
    ok := c.EnsureImportSecretExists(GetImportSecret, CreateImportSecret, mc.value.name);
    if ok {
      imported := LastStatus(c.env.importConditions);
    }
  }

  /** ocm.CreateKlusterletAddonConfig. */
  method CreateKlusterletAddonConfig(c: ApiClient) returns (ok: bool)
    modifies c
    ensures (c.hub, ok) == EnsureKlusterlet(c.cfg, c.env, old(c.hub))
  {
    hide Handled, FirstCluster;
    var o, mc := GetManagedCluster(c, ListForKlusterlet);
    if o != Served || mc.None? {
      return false;
    }
    ok := c.EnsureKlusterletExists(GetKlusterlet, CreateKlusterlet, mc.value.name);
  }
}
