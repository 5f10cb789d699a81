# Cluster templates operator: a verification model

The operator turns a `ClusterTemplateInstance` into an installed, registered and set-up
cluster. Its reconciler is level-triggered: each pass reads the recorded conditions, walks a
fixed chain of steps, edits Argo CD ApplicationSets, managed clusters and secrets that it
shares with other controllers, and finally writes the status. Any call can be refused, can be
carried out with its answer lost, and the status write itself can be lost. This project models
that reconciler, its delete pass, the quota controller with the admission check, and the
smaller controllers around them, and proves what they keep over every run.

## How the model is built

* `Generators`, `SharedAppSets`: generator lists, the Helm merge, and the ApplicationSets as a
  versioned store that any number of workers read, edit and write back, step by step.
* `Conditions`, `Applications`: the condition list with its search-and-update setters and
  gates, application health, provider detection, node pools.
* `Hub`, `Lifecycle`, `Passes`: the API server as one instance sees it, every step of a pass as
  a function of configuration, status, server and environment, and their order. The environment
  is an oracle: for every call it says how the call turns out and what everybody else has made
  of the server by then, restricted only by `Hub.Rely`: nobody else touches the instance's own
  generators, argo secrets and credentials or makes a managed cluster under its labels, a changed
  ApplicationSet has a newer version, and names stay unique. Removing a whole ApplicationSet, or
  a managed cluster of the instance, is allowed.
* `Calls`, `DeletionCalls`: the same passes as lists of single API calls, each with the server it
  is handled on and the one write it makes.
* `HubInvariants`, `Deletion`, `Runs`: invariants of one pass, of one delete pass, and of whole
  lives with lost status writes.
* `Times`: over passes and lives, when a condition's transition time moves.
* `Destinations`, `Writes`, `Reports`: what the generators, the other objects and the status of an
  instance hold. The first and the last are about whole lives.
* `Answers`: that no failed call is passed over, by a pass that returns nil or a delete pass that
  lets the finalizer go.
* `Removals`, `Addons`: what a deletion takes with it, object by object, and that it takes nothing
  else.
* `Convergence`, `Steadiness`, `Causes`, `Origins`, `Forecast`, `Registration`, `Leaks`, `Release`,
  `Remains`, `Liveness`: when a pass succeeds, what any number of later ones may still change, what a recorded
  condition tells, what a whole pass without failures records, what crashes, what a deletion leaves
  behind, and which instances can become Ready at all. `Examples` has a concrete input for the
  ways of going wrong.
* `Caches`, `Lagging`: registrations and delete passes whose lists are answered from an older
  state of the server. Everywhere else the reads of a pass are those of the present server.
* `Coexistence`, `Systems`: `Rely` is not only assumed. Every single call of another instance and
  every step of the versioned store keeps it. `Systems` is a machine whose steps are single calls
  of single instances, operator crashes in between, and anybody else's steps; every instance in it
  keeps all that is proved of one life, and a deleted one leaves the ApplicationSets as if it had
  never been there. The environment of a pass is the record of what server each of its calls
  finds; a pass goes on only as its record says, and a run is told with whatever records fit it.
  `Races` spells out one such run, in which the calls of two passes alternate and one loses.
* `Client`, `ApplicationSets`, `ManagedClusters`, `Providers`, `Reconciler`: the same operations
  in the form the source has them, with objects updated in place and loops, each method shown
  to do what the function of the pass says. The aliasing of the day-2 look-up is derived here.
* `DayTwo`: what that aliasing does to the setup fan-out, and the intended fan-out.
* `Quotas`, `Admission`, `Overshoot`: cached quota status, admission check, overshoot bound.
* `Bridge`, `EnvVars`, `Restarts`, `Deadlines`: the bounded parallel fetch, the subscription's
  environment variable, controller restarts, time to live and login window.

## What the code does that one may not expect

Each of these is proved, with the exact condition.

* `getDay2Appsets` allocates one object before its loop, so all entries it returns are that
  object and only the last named ApplicationSet is ever joined (`DayTwo.EverySetupJoinedExactlyWhen`);
  an instance is recorded Ready all the same (`DayTwo.ReadyThoughNotJoined`).
* With the add-on CRD but without the managed cluster CRD (and registration not skipped), or
  registering with template labels that override the instance's own, an instance never becomes
  Ready; every other one can (`Liveness.ReadyIsReachableExactlyWhen`). Whatever has failed or got
  lost, it still can at any moment before its deletion, but for one thing: the registration is not
  repeated, so a managed cluster that somebody removes after it was recorded wedges an instance
  that is not Ready yet (`Liveness.BecomesReadyExactlyWhen`).
* The registration dereferences nil exactly when the look-up after the creation finds nothing:
  the labels were overridden, somebody removed the cluster in between
  (`Registration.CrashesExactlyWhen`, `Registration.PassCrashesExactlyWhen`,
  `Examples.BothCrash`), or the list it is shown is older than the creation
  (`Caches.LookUpCrashesExactlyWhen`). Nothing of the crashed pass is recorded, so with overridden
  labels the restarted operator crashes again, and leaves one more managed cluster behind each time
  (`Leaks.CrashesForever`, `Leaks.CrashesAddUp`).
* The look-up before the creation prevents a second managed cluster exactly as long as no list
  that leads to a creation misses a cluster; a cache that shows the instance's own last creation
  is enough (`Caches.AtMostOneExactlyWhen`, `Caches.OwnWritesSuffice`).
* Labels of the template can also make a new cluster pass for another instance's
  (`Coexistence.RegistrationRespectsExactlyWhen`).
* If the template is deleted before the instance, the instance's generators stay behind, for
  good (`Remains.ListedAtReleaseExactlyWhen`, `Remains.AfterRelease`, `Examples.LeftBehind`).
* A delete pass goes by what its lists show: the release is clean exactly when they miss nothing
  that the instance has (`Lagging.CleanExactlyWhenNothingMissed`).
* Import secret and add-on are removed by the name of the managed cluster that is found, so they stay
  behind when that cluster is gone already (`Removals.ReleaseTakesExactly`).
* A failed console look-up, a missing application and a bad secret reference leave the phase that was
  there, so it may name a step that has been done (`Reports.PhaseNamesTheStep`).
* An argo secret of the right name that belongs to somebody else counts as success, and the
  instance then never gets one of its own (`Remains.NeverOwnsSecretExactlyWhen`,
  `Examples.ReadyWithoutOwnSecret`).
* A budget and a template without a cost crash the admission check, unless a quota listed before
  turns the instance away (`Admission.CrashesExactlyWhenCostMissing`).
* A template listed twice is charged twice, so the stored spend is the plain sum exactly when no
  instance is of a template that costs something and is listed more than once
  (`Quotas.PlainSumExactlyWhen`).
* The time to live is taken from the quotas of all namespaces, and from the last of them that
  has one (`Deadlines.TtlByEntries`). A look at the very instant of the deadline deletes
  nothing yet (`Deadlines.DeletedExactlyWhen`).
* A hypershift CRD that turns up after the set-up restarts the instance controller but never
  starts the template controller (`Restarts.OtherControllersStart`).
* Removing the namespace undoes adding it only if the variable had an entry and none listed it
  (`EnvVars.RemoveUndoesAddExactlyWhen`).

## Model

| member | source | states |
|---|---|---|
| Generators.FindOwn | api/v1alpha1/clustertemplateinstance_utils.go:171-175 | the search before the append finds a generator exactly when the list holds one with the instance's two labels |
| Generators.DropOwn | api/v1alpha1/clustertemplateinstance_utils.go:121-129 | the filtering loop keeps every other generator, in order |
| Generators.UniqueIffAtMostOneEach | api/v1alpha1/clustertemplateinstance_utils.go:172 | no two list generators with the same two labels is the same as at most one generator per instance |
| Generators.WithoutCommutes | api/v1alpha1/clustertemplateinstance_utils.go:121-129 | removals for two instances may be done in either order |
| Generators.GetHelmParameters | api/v1alpha1/clustertemplateinstance_utils.go:379-406 | the nested loops append exactly the parameters that are meant for the set and missing from the template, the first of each name |
| Generators.MergeIsRight | api/v1alpha1/clustertemplateinstance_utils.go:379-406 | the template's parameters are an unchanged prefix, the rest has distinct names disjoint from it, and every name reads as the template's value, else the first applicable instance value |
| Generators.MergedIsComplete | api/v1alpha1/clustertemplateinstance_utils.go:387-403 | the merge defines exactly the template's names and the applicable instance names |
| Generators.MergedByPlaces | api/v1alpha1/clustertemplateinstance_utils.go:379-406 | told by the places of the parameters: what is appended are exactly the instance's parameters that are meant for the set, the first of each name, that the template does not have |
| Generators.NewGeneratorSuits | api/v1alpha1/clustertemplateinstance_utils.go:177-221 | the generator carries the instance's two labels and namespace, the server it was made for, the setup label for a setup alone, a name of its own, the template's finalizers and the one that cleans up, and Helm parameters exactly if there is a chart |
| Generators.NamesDiffer | api/v1alpha1/clustertemplateinstance_utils.go:177-180 | the applications of one instance have the same name only if they are the same setup's |
| SharedAppSets.AtMostOneGeneratorPerInstance | api/v1alpha1/clustertemplateinstance_utils.go:164-224 | over any interleaving of joins, leaves, template rewrites, conflicts and lost answers every stored set keeps at most one generator per instance |
| SharedAppSets.BystandersUntouched | controllers/hypershifttemplate_controller.go:127-144 | over any run, the generators of instances nobody acted for and all nil-list generators are unchanged and in order |
| SharedAppSets.AsIfNeverThere | api/v1alpha1/clustertemplateinstance_utils.go:103-162 | in any run of the store that begins without an instance, wherever it is not listed at the end the generators are exactly those of the same run without its steps |
| Conditions.SetKeepsWellFormed | api/v1alpha1/clustertemplateinstance_conditions.go:112-236 | a setter keeps each of the nine types exactly once |
| Conditions.DefaultsMakeWellFormed | api/v1alpha1/clustertemplateinstance_conditions.go:245-317 | defaulting makes each type occur exactly once, keeps what was there, adds only False conditions, and does nothing on a complete list |
| Conditions.ConditionList.SetStatusCondition | api/v1alpha1/clustertemplateinstance_conditions.go:117-123 | search by type and in-place update, or append |
| Conditions.ConditionList.SetDefaultConditions | api/v1alpha1/clustertemplateinstance_conditions.go:245-317 | adds the missing conditions in order |
| Conditions.SetShows | api/v1alpha1/clustertemplateinstance_conditions.go:112-236 | the updated list and the nine recorded conditions stay in step |
| Conditions.GateShows | api/v1alpha1/clustertemplateinstance_conditions.go:319-339 | on a complete list no condition a gate looks up is missing, and the gate says the same as on the record |
| Applications.GetApplicationHealth | argocd/application_health.go:21-57 | in error exactly when a condition is one; degraded exactly when the health is and none is; healthy exactly when none is, the operation has succeeded, the health is good and, if asked for, that of all resources |
| Applications.ClassifiedByFields | argocd/application_health.go:21-57 | the same three equivalences for the classification that all other results are about |
| Applications.GetClusterProvider | clusterprovider/provider.go:27-76 | the first resource of a known kind and group says which provider it is, its name and namespace, an unsupported version that there is none; a hosted cluster has all node pools, in order |
| Applications.DetectedFromFirst | clusterprovider/provider.go:28-74 | resources before the first recognized one play no part, and an unsupported version there means no provider |
| Applications.ProviderByFields | clusterprovider/provider.go:27-76 | the same, resource by resource, for the detection that all other results are about |
| Applications.PoolsInOrder | clusterprovider/provider.go:36-41 | the collected names are those at the places of the node pools, in order |
| Applications.CollectNodePools | clusterprovider/provider.go:36-41 | the names of all node pools of the application, in order |
| Applications.NodePoolsReady | clusterprovider/hypershift_provider.go:117-137 | all node pools of the cluster report readiness and none reports False |
| Applications.LastStatus | clusterprovider/hypershift_provider.go:35-41 | there is a condition of the wanted type, and the last one of them is True |
| Hub.FirstClusterIsHead | ocm/managedcluster.go:89-95 | among prefixed clusters of the instance the look-up finds the first |
| Lifecycle.FirstByFields | clusterprovider/hive_provider.go:33-41 | a deployment is ready exactly when it has a readiness condition and the first one of them is True |
| Lifecycle.AddClusterToArgo | clustersetup/clustersetup.go:41-75 | sets the first login attempt once, and calls a failed login pending only before that attempt plus the timeout |
| Lifecycle.PublishCredentials | controllers/clustertemplateinstance_controller.go:630-703 | never replaces a known API server URL, only adds setup secrets, and records Ready exactly on success |
| Passes.StagesAdvance | controllers/clustertemplateinstance_controller.go:334-450 | from any step on, the chain holds and nothing latched is taken back |
| Passes.PassAdvances | controllers/clustertemplateinstance_controller.go:101-171 | one pass under any environment: chain, latches, first-time conditions, and Ready recorded exactly with the setup succeeded when it returns nil |
| HubInvariants.CreateManagedClusterEvolves | ocm/managedcluster.go:25-63 | a registration never makes a second managed cluster of the instance, its list being answered by the present server |
| HubInvariants.CreateClusterSecretsEvolves | clusterprovider/provider.go:79-133 | never overwrites a credential secret, and succeeds only with the kubeconfig secret in place |
| HubInvariants.ReadyMeansKubeconfig | clusterprovider/hypershift_provider.go:103-143 | whichever provider reports ready, the instance's kubeconfig secret exists |
| HubInvariants.FetchSetupsEvolves | api/v1alpha1/clustertemplateinstance_utils.go:353-377 | if no missing set is tolerated, the shared object is the last named set |
| HubInvariants.StagesKeepBacked | controllers/clustertemplateinstance_controller.go:334-450 | every step keeps the server invariant and the backing of recorded conditions |
| HubInvariants.PassKeepsHub | controllers/clustertemplateinstance_controller.go:334-450 | at most one generator per set and only in target sets, at most one managed cluster, credentials never changed, and recorded conditions backed by the server even if the status write is lost |
| Deletion.LeaveDay1Clears | api/v1alpha1/clustertemplateinstance_utils.go:103-132 | after a successful removal the definition does not list the instance |
| Deletion.LeaveDay2Clears | api/v1alpha1/clustertemplateinstance_utils.go:134-162 | after a successful removal the last named setup does not list the instance |
| Deletion.LeaveAppSetsClears | controllers/clustertemplateinstance_controller.go:232-247 | after both removals no ApplicationSet lists the instance, for any list of setups |
| Deletion.LeaveArgoClears | controllers/clustertemplateinstance_controller.go:250-273 | after the loop no argo secret is labelled for the instance |
| Deletion.RemovalLeavesNone | controllers/clustertemplateinstance_controller.go:275-306 | deleting the one cluster that is found leaves none |
| Deletion.LeaveClusterClears | controllers/clustertemplateinstance_controller.go:275-306 | after a successful removal no managed cluster is labelled for the instance |
| Deletion.DeletePassClears | controllers/clustertemplateinstance_controller.go:211-315 | its lists being those of the present server, the pass that lets the finalizer go leaves no secret and no managed cluster of the instance and, with the template present, no generator, whatever earlier passes left half-done; the credentials stay |
| Removals.FoundAddonsGo | controllers/clustertemplateinstance_controller.go:275-306 | in any environment, a pass that lets the finalizer go has removed the import secret of the managed cluster it found, and the add-on configuration where add-ons are enabled, unless somebody else made them again meanwhile |
| Removals.ReleaseTakesExactly | controllers/clustertemplateinstance_controller.go:211-315 | with nobody else at work, what such a pass takes is exactly the instance's generators (if the template is there), argo secrets, managed cluster and that cluster's import secret and add-on; every other object stays as it is |
| Removals.LifeTakesExactly | controllers/clustertemplateinstance_controller.go:211-315 | the same of the pass that ends any life |
| Addons.NoAddonIsLeft | controllers/clustertemplateinstance_controller.go:275-306 | over whole lives in which nobody else touches the instance's cluster and its add-ons: once the finalizer is gone, no import secret and no add-on configuration that the instance ever made is left |
| Lagging.CleanExactlyWhenNothingMissed | controllers/clustertemplateinstance_controller.go:250-306 | whatever fails and whatever its two lists show: a delete pass that lets the finalizer go leaves no argo secret exactly when its list missed none, and nothing if the lists missed nothing; unless somebody else removes the cluster meanwhile, the release is clean exactly then |
| Lagging.UpToDate | controllers/clustertemplateinstance_controller.go:211-315 | with up-to-date lists that delete pass is the one all other results are about |
| Lagging.EmptyListsRemoveNothing | controllers/clustertemplateinstance_controller.go:250-306 | shown empty lists, the template gone and no call failing, the finalizer goes and nothing is removed |
| Runs.EveryLife | controllers/clustertemplateinstance_controller.go:101-171 | over every life with failures, lost status writes and interference: chain, at most one generator and managed cluster, Ready only with the setup succeeded, install backed by the kubeconfig secret, the deletion included, nothing left after release |
| Runs.NeverTakenBack | controllers/clustertemplateinstance_controller.go:334-450 | latched conditions, API server URL, first login time and setup secrets recorded once stay recorded |
| Runs.RemainingNeverRises | controllers/clustertemplateinstance_controller.go:334-450 | the number of latched conditions still to come never rises |
| Destinations.EveryGeneratorPoints | api/v1alpha1/clustertemplateinstance_utils.go:164-224 | in every life, a generator of the instance in the definition's set sends the application to the hub, and one in a setup's set, which alone has the setup label, to the API server that the instance's kubeconfig names |
| Writes.EveryWriteIsWarranted | controllers/clustertemplateinstance_controller.go:334-450 | in any environment, every write of a pass comes after all the calls it rests on have worked, is of what it ought to be (the URL and password that the provider or the referred secret hold, the name of the application or reference), and removes nothing |
| Writes.EveryWriteIsRight | controllers/clustertemplateinstance_controller.go:334-450 | what such a call leaves on the server that was not there before is the instance's and rightly named, labelled and filled, and what was there is as it was |
| Answers.NilMeansAnswered | controllers/clustertemplateinstance_controller.go:101-171 | a pass that returns nil has had every call it made answered: no failure is passed over |
| Answers.ReleaseMeansAnswered | controllers/clustertemplateinstance_controller.go:211-315 | a delete pass lets the finalizer go only if that is the only finalizer, every call before has been answered, no managed cluster or argo secret that it deleted was gone already, and the update that removes the finalizer was carried out |
| Reports.EveryStepTells | controllers/clustertemplateinstance_controller.go:334-1164 | for each step, the status, reason and phase it records in each case of its calls and of the applications, conditions and claims it reads; the published URL, secrets, first login, console URL and setup list with it |
| Reports.StartsPending | controllers/clustertemplateinstance_controller.go:119-123 | a new instance is pending, its nine conditions False with the reasons that say what they wait for |
| Reports.PhaseNamesTheStep | controllers/clustertemplateinstance_controller.go:334-450 | the phase that a failed pass records names the step it stopped at, but for the console look-up, the secret reference and an application that is not there yet, which leave the phase alone |
| Reports.EveryPhaseIsAccountedFor | controllers/clustertemplateinstance_controller.go:101-171 | in every life, a recorded phase goes back to a pass that met with what the phase says |
| Reports.RecordedUrlIsReal | controllers/clustertemplateinstance_controller.go:647-669 | in every life, a recorded API server URL is the one in the instance's kubeconfig |
| Times.PassIsTimed | api/v1alpha1/clustertemplateinstance_conditions.go:112-236 | over a whole pass a condition's transition time moves exactly when its status differs from what it was at the start, and then to the time of the pass |
| Times.RecordedTimeIsLastChange | controllers/clustertemplateinstance_controller.go:101-171 | in every life the recorded transition time is the time of the pass that last changed the recorded status |
| Times.TimeMovesWithStatusOnly | controllers/clustertemplateinstance_controller.go:101-171 | as long as a recorded status stays the same so does its time, over any number of passes |
| Convergence.CalmProvider | clusterprovider/hive_provider.go:19-84 | with all calls successful a provider reports ready exactly when its objects say so, and the credentials are then in place |
| Convergence.FavourablePassIsReady | controllers/clustertemplateinstance_controller.go:334-450 | from every reachable state a pass whose reads are favourable ends in Ready with nothing left to do |
| Convergence.NextPassChangesNothing | controllers/clustertemplateinstance_controller.go:334-450 | a pass after it on the same reads, at whatever later time, changes no condition, time, generator, cluster, secret or add-on |
| Steadiness.ReadyStaysReady | controllers/clustertemplateinstance_controller.go:334-450 | any number of further passes, each on other reads as long as they are favourable, end in Ready and leave generators, clusters, argo secrets, kubeconfigs, add-ons and conditions with their times as they were, but that the console condition may turn on; at most they add the missing password and further setup secrets |
| Causes.NothingIsTurnedOnWithoutCause | controllers/clustertemplateinstance_controller.go:488-1164 | under any environment a step turns its condition on only with its cause: a fine application whose provider's objects say ready, the instance's own cluster there, its import reported and its import secret made, its add-on made, login and argo secret, setup applications without error, finished and healthy all through |
| Origins.EverythingHasGrounds | controllers/clustertemplateinstance_controller.go:334-450 | over whole lives, what is recorded of installation, import, console, argo cluster and setup goes back to a pass that saw the grounds for it |
| Origins.ReadyHasGrounds | controllers/clustertemplateinstance_controller.go:1051-1156 | an instance with setups is recorded Ready only if some pass found all its setup applications without an error condition, finished and healthy |
| Causes.DefinitionExactlyWhen | controllers/clustertemplateinstance_controller.go:452-478 | without failures the definition counts as created exactly when its ApplicationSet exists, which then lists the instance |
| Causes.RegisteredExactlyWhen | controllers/clustertemplateinstance_controller.go:746-807 | without failures registration is recorded exactly when a cluster of the instance exists or can be made |
| Causes.SetupCreatedExactlyWhen | controllers/clustertemplateinstance_controller.go:1003-1049 | without failures setup is created exactly when every named set and the kubeconfig exist, or nothing is named |
| Forecast.CalmPassRecords | controllers/clustertemplateinstance_controller.go:334-450 | a whole pass without failures, from any reachable state: which of the conditions it leaves on is told step by step from the state it starts in and what it reads; it returns nil exactly when every step is foretold to go on, and is then Ready exactly when the setup is foretold to have succeeded |
| Registration.CrashesExactlyWhen | controllers/clustertemplateinstance_controller.go:783-800 | its lists being those of the present server, in any environment the registration step dereferences nil exactly when its creation reports success, its look-up is answered, and the cluster was made with one of the two labels overridden or was removed in between |
| Registration.CrashesExactlyWhenRelabelled | controllers/clustertemplateinstance_controller.go:783-800 | a first registration that is answered throughout and whose cluster nobody removes crashes exactly when the template overrides one of the two labels, and leaves a cluster that the instance never finds again |
| Registration.PassCrashesExactlyWhen | controllers/clustertemplateinstance_controller.go:334-450 | on such lists a pass from a reachable state crashes exactly when it gets to the registration and that one does |
| Registration.PassNeverCrashes | controllers/clustertemplateinstance_controller.go:334-450 | on such lists no pass from a reachable state crashes if an instance that registers keeps its labels and nobody has removed the new cluster by the look-up |
| Leaks.CalmPassCrashesExactlyWhen | controllers/clustertemplateinstance_controller.go:334-450 | a pass without failures crashes exactly when the cluster is installed, no registration is recorded, no cluster of the instance is there, the new name is free and the template overrides its labels |
| Leaks.CrashesForever | controllers/clustertemplateinstance_controller.go:783-800 | once such a pass has crashed, so does every further one that reads the same, under whatever new names |
| Leaks.CrashesAddUp | controllers/clustertemplateinstance_controller.go:783-800 | any number of crashes, one after another: nothing is recorded, and each has left one more managed cluster that is not labelled for the instance |
| Examples.BothCrash | controllers/clustertemplateinstance_controller.go:783-800 | two concrete first passes that crash: overridden labels, and a cluster removed before it is looked up |
| Caches.AtMostOneExactlyWhen | ocm/managedcluster.go:25-63 | over any run of registrations that look at any older list of clusters, removals and foreign clusters: never a second cluster of the instance exactly when no creation follows a list that misses one |
| Caches.OwnWritesSuffice | controllers/clustertemplateinstance_controller.go:1174 | it is enough that every list shows the instance's own last creation |
| Caches.StaleListDuplicates | ocm/managedcluster.go:25-63 | two registrations in a row that look at the list from before the first make two clusters |
| Caches.UpToDate | ocm/managedcluster.go:25-63 | with up-to-date lists a registration of that machine is the one of the pass, and crashes exactly when that one does |
| Caches.LookUpCrashesExactlyWhen | controllers/clustertemplateinstance_controller.go:783-800 | the look-up after the first creation, whatever list it is shown and whatever others did since, crashes the step exactly when the list is older than the creation and showed no cluster, or the labels were overridden, or the new cluster had been removed by then |
| Caches.LaggingLookUpCrashes | controllers/clustertemplateinstance_controller.go:783-800 | a first registration with labels kept and nobody else about crashes on the list from before the creation and not on the one after it |
| Release.CalmDeleteReleases | controllers/clustertemplateinstance_controller.go:211-315 | a delete pass without failures releases the finalizer exactly when it is the only one |
| Release.ListedAfterReleaseExactlyWhen | controllers/clustertemplateinstance_controller.go:228-248 | after any delete pass that releases, the instance is listed nowhere if the template was found or it was not listed before, and exactly then unless somebody removes a whole ApplicationSet meanwhile |
| Release.OwnSecretExactlyWhen | clustersetup/clustersetup.go:188-209 | any addition that succeeds leaves the instance without an argo secret of its own exactly when it had none and the name was taken by the time of the look-up |
| Remains.ListedAtReleaseExactlyWhen | controllers/clustertemplateinstance_controller.go:211-315 | in any life, whatever fails: after the delete pass that releases the instance its generators survive exactly when the template was gone by then and it was still listed, unless somebody removes a whole ApplicationSet during that pass; without failures it does release |
| Remains.AfterRelease | controllers/clustertemplateinstance_controller.go:211-315 | after the release an ApplicationSet that does not list the instance never will, and one that does keeps doing so until it is removed as a whole |
| Remains.NeverGetsOwnSecret | controllers/clustertemplateinstance_controller.go:956-1001 | an instance recorded as added without an argo secret of its own has none in all the rest of its life |
| Remains.NeverOwnsSecretExactlyWhen | clustersetup/clustersetup.go:188-209 | from any moment of any life, whatever else happens in it, the pass that records the cluster as added leaves the instance without a secret of its own for good exactly when it had none and the name was taken by the time it was looked up |
| Examples.LeftBehind | controllers/clustertemplateinstance_controller.go:228-248 | a concrete life in which the template goes first, nothing fails, and the generator stays behind |
| Examples.ReadyWithoutOwnSecret | utils/resource.go:10-28 | a concrete instance that is Ready after one pass and never has an argo secret of its own |
| Liveness.NeverReady | controllers/clustertemplateinstance_controller.go:873-911 | with the add-on CRD alone, or overridden labels, no run ever records Ready |
| Liveness.NeverWedged | controllers/clustertemplateinstance_controller.go:334-450 | from any moment before the deletion, whatever has failed or got lost and whatever others did that Rely allows, a completable instance whose registered cluster nobody removed can still become Ready |
| Liveness.BecomesReadyExactlyWhen | controllers/clustertemplateinstance_controller.go:746-954 | a completable instance that is not Ready can still become so exactly when no registration is recorded whose cluster is gone |
| Liveness.ReadyIsReachableExactlyWhen | controllers/clustertemplateinstance_controller.go:334-450 | Ready is reachable exactly for completable configurations |
| Calls.PassLeads | controllers/clustertemplateinstance_controller.go:334-450 | a pass is the list of its API calls: one after the other, each with a write that is legal on the server it finds, they lead from where the pass starts to where it ends |
| DeletionCalls.DeletePassLeads | controllers/clustertemplateinstance_controller.go:211-315 | so is a delete pass, whose calls only remove the instance's own generators and secrets and, by name, the managed cluster it has found to be its own |
| HubInvariants.ChangeEvolves | controllers/clustertemplateinstance_controller.go:334-450 | every single write of a pass keeps the instance's server invariant and takes nothing of its own away |
| Coexistence.ChangeRespectsOthers | controllers/clustertemplateinstance_controller.go:211-450 | any single call of one instance's pass or delete pass keeps what every other instance relies on, unless it registers a cluster under the other's labels |
| Coexistence.RegistrationRespectsExactlyWhen | ocm/managedcluster.go:44-62 | a registration is harmless to another instance exactly when the merged labels do not name that instance |
| Coexistence.PassRespectsOthers | controllers/clustertemplateinstance_controller.go:334-450 | a whole pass, failed half-way or not, respects another instance as soon as what happens between its calls does |
| Coexistence.DeletePassRespectsOthers | controllers/clustertemplateinstance_controller.go:211-315 | so does a delete pass |
| Coexistence.StoreStepIsTolerated | controllers/hypershifttemplate_controller.go:127-144 | every step of another worker, the template reconciler's included, on the shared sets is an interference the passes are proved against |
| Coexistence.CallIsStoreStep | api/v1alpha1/clustertemplateinstance_utils.go:103-224 | to the ApplicationSets every call of an instance is a get, edit and write of the shared store under its own key, or nothing |
| Systems.EveryResidentEveryLife | controllers/clustertemplateinstance_controller.go:101-171 | with any number of instances, their API calls, failures, crashes, lost status writes, deletions and everybody else's changes interleaved one by one: at most one generator per set and only in target sets, at most one managed cluster, the chain, Ready only with the setup succeeded, nothing left after release |
| Systems.NothingTakenBack | controllers/clustertemplateinstance_controller.go:101-171 | in every such run what an instance has recorded stays recorded |
| Systems.AnyInterleavingIsForetold | controllers/clustertemplateinstance_controller.go:101-171 | whatever has happened since an instance's last call is an interference its pass is proved against |
| Systems.RunIsStoreRun | controllers/clustertemplateinstance_controller.go:101-171 | to the ApplicationSets a run of the whole system is a run of the shared store in which every instance acts under its own key |
| Systems.GoneAsIfNeverThere | controllers/clustertemplateinstance_controller.go:211-315 | when an instance's finalizer goes with the template present, every ApplicationSet holds exactly the generators, in order, of the same run without that instance |
| Systems.OthersGeneratorsUntouched | controllers/clustertemplateinstance_controller.go:101-171 | at every moment nil-list generators and those of everybody nobody acted for are unchanged and in order |
| Races.LostRace | api/v1alpha1/clustertemplateinstance_utils.go:257-280 | two new instances of one definition both read it, the second joins it, and the write of the first, which would have taken that out again, is refused |
| Client.ClusterTemplateInstance.BeginPass | controllers/clustertemplateinstance_controller.go:117-122 | a new instance starts pending with all conditions False, a recorded one unchanged |
| Client.ClusterTemplateInstance.SetCondition | api/v1alpha1/clustertemplateinstance_conditions.go:112-236 | the list after the setter shows the recorded conditions after the write |
| Client.ClusterTemplateInstance.PhaseCanExecute | api/v1alpha1/clustertemplateinstance_conditions.go:319-339 | the gate on the list is the gate on the recorded conditions |
| Client.ApiClient.UpdateAppSet | api/v1alpha1/clustertemplateinstance_utils.go:131 | a write is refused when the stored version has moved on, and the copy takes on the new version |
| Client.ApiClient.EnsureArgoSecretExists | utils/resource.go:10-28 | get, and create only if there is none of the name |
| ApplicationSets.BuildGenerator | api/v1alpha1/clustertemplateinstance_utils.go:177-221 | the generator has what Generators.NewGeneratorSuits says of it |
| ApplicationSets.UpdateApplicationSet | api/v1alpha1/clustertemplateinstance_utils.go:164-224 | no request when the instance is listed, else one append and one conflict-checked write |
| ApplicationSets.CreateDay1Application | api/v1alpha1/clustertemplateinstance_utils.go:257-280 | does what the definition step of the pass says |
| ApplicationSets.DeleteDay1Application | api/v1alpha1/clustertemplateinstance_utils.go:103-132 | does what the delete pass says for the definition |
| ApplicationSets.GetDay2Appsets | api/v1alpha1/clustertemplateinstance_utils.go:353-377 | all entries of the result are one object, holding the set fetched last |
| ApplicationSets.CreateDay2Applications | api/v1alpha1/clustertemplateinstance_utils.go:317-351 | joins that one object and finds the generator in place on every further round |
| ApplicationSets.DeleteDay2Application | api/v1alpha1/clustertemplateinstance_utils.go:134-162 | filters and writes that one object once per entry |
| ManagedClusters.GetManagedCluster | ocm/managedcluster.go:65-96 | the first listed cluster with the generated prefix |
| ManagedClusters.MergeLabels | ocm/managedcluster.go:44-52 | the template's labels win over the standard ones |
| ManagedClusters.CreateManagedCluster | ocm/managedcluster.go:25-63 | looks before it creates, as the pass says |
| ManagedClusters.ImportManagedCluster | ocm/managedcluster.go:98-143 | ensures the import secret and reports the last import condition |
| ManagedClusters.CreateKlusterletAddonConfig | ocm/klusterlet.go:14-47 | ensures the add-on configuration of the cluster found |
| Providers.CreateClusterSecrets | clusterprovider/provider.go:79-133 | copies the credentials unless they are there |
| Providers.HostedClusterStatus | clusterprovider/hypershift_provider.go:20-144 | does what the pass says for a hosted cluster |
| Providers.CreateCDSecrets | clusterprovider/hive_provider.go:102-159 | copies the credentials of a cluster deployment |
| Providers.ClusterDeploymentStatus | clusterprovider/hive_provider.go:19-43 | the first readiness condition decides |
| Providers.ClusterClaimStatus | clusterprovider/hive_provider.go:50-84 | a bound claim's deployment provides the credentials |
| Reconciler.ClusterTemplateInstanceReconciler.ReconcileClusterCreate | controllers/clustertemplateinstance_controller.go:452-478 | status and server afterwards are what the definition step says |
| Reconciler.ClusterTemplateInstanceReconciler.ReconcileClusterStatus | controllers/clustertemplateinstance_controller.go:488-615 | status and server afterwards are what the install step says |
| Reconciler.ClusterTemplateInstanceReconciler.ReconcileSecretRef | controllers/clustertemplateinstance_controller.go:358-384 | status and server afterwards are what the secret reference step says |
| Reconciler.ClusterTemplateInstanceReconciler.ReconcileCreateManagedCluster | controllers/clustertemplateinstance_controller.go:746-807 | status and server afterwards are what the registration step says |
| Reconciler.ClusterTemplateInstanceReconciler.ReconcileImportManagedCluster | controllers/clustertemplateinstance_controller.go:809-871 | status and server afterwards are what the import step says |
| Reconciler.ClusterTemplateInstanceReconciler.ReconcileCreateKlusterlet | controllers/clustertemplateinstance_controller.go:873-911 | status and server afterwards are what the add-on step says |
| Reconciler.ClusterTemplateInstanceReconciler.ReconcileConsoleURL | controllers/clustertemplateinstance_controller.go:913-954 | the last claim of the name is the one recorded |
| Reconciler.ClusterTemplateInstanceReconciler.AddClusterToArgo | clustersetup/clustersetup.go:41-209 | status and server afterwards are what adding to Argo CD says |
| Reconciler.ClusterTemplateInstanceReconciler.ReconcileAddClusterToArgo | controllers/clustertemplateinstance_controller.go:956-1001 | status and server afterwards are what the argo step says |
| Reconciler.ClusterTemplateInstanceReconciler.ReconcileClusterSetupCreate | controllers/clustertemplateinstance_controller.go:1003-1049 | status and server afterwards are what the setup creation step says |
| Reconciler.ClusterTemplateInstanceReconciler.Survey | controllers/clustertemplateinstance_controller.go:1104-1130 | the loop's flag and lists tell all healthy, some in error, some degraded |
| Reconciler.ClusterTemplateInstanceReconciler.ReconcileClusterSetup | controllers/clustertemplateinstance_controller.go:1051-1164 | status and server afterwards are what the setup step says |
| Reconciler.ClusterTemplateInstanceReconciler.ReconcileClusterCredentials | controllers/clustertemplateinstance_controller.go:617-704 | status and server afterwards are what the credentials step says |
| Reconciler.ClusterTemplateInstanceReconciler.RunSteps | controllers/clustertemplateinstance_controller.go:334-450 | the blocks in their order up to the first failure |
| Reconciler.ClusterTemplateInstanceReconciler.Reconcile | controllers/clustertemplateinstance_controller.go:101-171 | status and server after the method are those of the pass all results are about |
| Reconciler.ClusterTemplateInstanceReconciler.DeleteArgoSecrets | controllers/clustertemplateinstance_controller.go:250-273 | the loop deletes what the delete pass says |
| Reconciler.ClusterTemplateInstanceReconciler.DeleteManagedCluster | controllers/clustertemplateinstance_controller.go:275-306 | the removal of add-on, import secret and cluster in place; Removals.FoundAddonsGo says what goes |
| Reconciler.ClusterTemplateInstanceReconciler.Delete | controllers/clustertemplateinstance_controller.go:211-315 | server and finalizer after the method are those of the delete pass |
| DayTwo.OnlyLastIsJoined | api/v1alpha1/clustertemplateinstance_utils.go:317-377 | with every call successful only the last named set is joined, and success is reported |
| DayTwo.EverySetupJoinedExactlyWhen | api/v1alpha1/clustertemplateinstance_utils.go:317-377 | whenever a creation reports success, in any environment, no setup but the last is listed that was not before; unless somebody removes an ApplicationSet meanwhile, every named setup is joined exactly when all but the last already were |
| DayTwo.NeverJoined | api/v1alpha1/clustertemplateinstance_utils.go:317-377 | in no life is a setup joined that is neither the last one named nor the cluster definition |
| DayTwo.ReadyThoughNotJoined | api/v1alpha1/clustertemplateinstance_utils.go:317-377 | every completable instance that names such a setup can become Ready, and whenever it is Ready the setup is not joined |
| DayTwo.FirstOfTwoIsLeftOut | api/v1alpha1/clustertemplateinstance_utils.go:317-377 | the same for an instance with two setups on an empty server |
| DayTwo.CreateEachDay2Application | api/v1alpha1/clustertemplateinstance_utils.go:343-350 | with one object per name every named set lists the instance exactly once, no other set changes, and it succeeds exactly when no set to be written is named twice |
| Quotas.ClusterTemplateQuota.Reconcile | controllers/clustertemplatequota_controller.go:44-104 | the nested loops store a status that is accurate for what was listed |
| Quotas.SpentMeansSpend | controllers/clustertemplatequota_controller.go:66-97 | the stored spend is the instances' cost with each template charged once per mention, hence the plain sum for distinct names |
| Quotas.PlainSumExactlyWhen | controllers/clustertemplatequota_controller.go:66-97 | the stored spend exceeds the plain sum by the cost of every further mention; with costs that are not negative it is the plain sum exactly when no instance is of a template that costs something and is listed more than once |
| Quotas.StatusByEntries | controllers/clustertemplatequota_controller.go:57-99 | every entry has the number of the instances of its template, and adds that number times the template's price |
| Quotas.PriceByPlace | controllers/clustertemplatequota_controller.go:66-77 | the price is the cost of the first template of the name that has one; without such a template it is nothing |
| Quotas.ListedTwiceIsChargedTwice | controllers/clustertemplatequota_controller.go:66-97 | a concrete quota that lists one template twice charges its one instance twice |
| Quotas.SpentIsTheBill | controllers/clustertemplatequota_controller.go:66-91 | summing by template and by instance agree |
| Quotas.ListingOrderIsIrrelevant | controllers/clustertemplatequota_controller.go:79-86 | the status does not depend on the order of the listed instances |
| Admission.CheckQuota | api/v1alpha1/clustertemplateinstance_webhook.go:164-236 | the loops decide as the judgement does, and secret references skip the check |
| Admission.AdmittedExactlyWhen | api/v1alpha1/clustertemplateinstance_webhook.go:164-236 | let in exactly when the template exists and there is no quota, or every quota's cached status has room, under its budget and under the count of its last entry for the template, and one lists the template |
| Admission.RefusedExactlyFor | api/v1alpha1/clustertemplateinstance_webhook.go:164-236 | an instance that is turned away is told what the first quota without room lacks, or that no quota or no such template is there |
| Admission.LimitByEntries | api/v1alpha1/clustertemplateinstance_webhook.go:206-217 | the maximum is the count of the last entry for the template; without an entry there is none |
| Admission.TemplateByPlace | api/v1alpha1/clustertemplateinstance_webhook.go:184-193 | the template is the first one of the name |
| Admission.CrashesExactlyWhenCostMissing | api/v1alpha1/clustertemplateinstance_webhook.go:201-227 | a nil cost is dereferenced exactly when the template has none and some quota has a budget, with no quota before it that has one or that turns the instance away |
| Admission.BudgetMeetsNoCost | api/v1alpha1/clustertemplateinstance_webhook.go:201-211 | a concrete quota with a budget and template without a cost that crash it |
| Overshoot.OvershootIsBounded | api/v1alpha1/clustertemplateinstance_webhook.go:164-227 | with any quotas, one that lists a template twice included, and checks, stores, unchecked instances with a secret reference and both halves of the refreshes interleaved: if no cached status misses more than k of the instances let in, counts stay within max + k - 1 and spend within budget + (k - 1) times the largest cost, plus one and that cost for each unchecked instance |
| Overshoot.ExactWhenRefreshedEachTime | api/v1alpha1/clustertemplateinstance_webhook.go:200-227 | if none ever misses more than one, every quota is kept exactly but for the unchecked instances |
| Overshoot.BoundIsReached | controllers/clustertemplatequota_controller.go:53-99 | the bound is met, and instances let in between a refresh's listing and its status write count against it like those after |
| Bridge.FilterSecretsByType | bridge/router.go:166-174 | keeps exactly the secrets at the places of those of the type, in order |
| Bridge.KeptByPlace | bridge/router.go:166-174 | the same of the filter as a function |
| Bridge.AtMostFifteenInFlight | bridge/router.go:208-221 | on every schedule at most fifteen fetches are in flight and no slot is written twice or wrongly |
| Bridge.NeverStuck | bridge/router.go:208-221 | until the main routine has returned some routine can move, and then none can |
| Bridge.EveryScheduleEnds | bridge/router.go:208-221 | every schedule takes exactly five steps per secret and one more |
| Bridge.SameAsSequential | bridge/router.go:208-223 | when the wait is over every slot was written once, with its own secret's result |
| EnvVars.JoinOfSplit | controllers/argocd_controller.go:159-163 | joining what was split gives the value back |
| EnvVars.SplitOfJoin | controllers/argocd_controller.go:159-163 | splitting what was joined gives the parts back |
| EnvVars.SplitGivesPlain | controllers/argocd_controller.go:159-163 | no part of a split holds the separator, so that splitting and joining are inverse both ways |
| EnvVars.RemoveUndoesAddExactlyWhen | controllers/argocd_controller.go:103-169 | removing undoes adding exactly when there was an entry and none listed the namespace |
| EnvVars.AbsentEndsEmpty | controllers/argocd_controller.go:106-110 | an absent variable ends as one appended empty entry |
| EnvVars.AddIsIdempotent | controllers/argocd_controller.go:103-124 | adding twice is adding once |
| EnvVars.OtherVariablesUntouched | controllers/argocd_controller.go:154-169 | other variables are kept, in order |
| EnvVars.EntryByParts | controllers/argocd_controller.go:103-169 | adding appends the namespace to the parts of the entry unless it is there, removing takes out its first occurrence |
| EnvVars.ByEntries | controllers/argocd_controller.go:103-169 | entry by entry: adding changes the first entry of the variable alone or appends one, removing changes all of them |
| EnvVars.Subscription.ContainsEnvVar | controllers/argocd_controller.go:175-182 | finds an entry of the variable exactly when there is one |
| EnvVars.Subscription.AddNamespace | controllers/argocd_controller.go:103-124 | the environment afterwards is the one with the namespace added |
| EnvVars.Subscription.RemoveNamespace | controllers/argocd_controller.go:150-169 | the environment afterwards is the one with the namespace removed |
| Restarts.CLaaSReconciler.SetupWithManager | controllers/claas_controller.go:132-168 | one instance controller, with the flags of the available CRDs, and the template and console plugin controllers if theirs are there |
| Restarts.CLaaSReconciler.IsCRDSupported | controllers/claas_controller.go:201-213 | group, kind and one of the versions match |
| Restarts.LearntExactly | controllers/claas_controller.go:69-128 | a flag comes on exactly with the CRD it is about, by group, kind and version, and none goes off |
| Restarts.CLaaSReconciler.Reconcile | controllers/claas_controller.go:54-128 | flags and controllers after the five blocks |
| Restarts.ExactlyOneControllerRuns | controllers/claas_controller.go:69-115 | after every event exactly one controller is not cancelled and runs with the current flags; restarts equal flags gained |
| Restarts.OtherControllersStart | controllers/claas_controller.go:117-168 | the console plugin controller starts once and only with its CRD; the hypershift template controller exactly when the hypershift CRD was there at the set-up, never later |
| Restarts.TakenUpForGood | controllers/claas_controller.go:69-115 | the flag of a CRD that was seen stays on |
| Deadlines.AutoDelete | controllers/clustertemplateinstance_controller.go:175-209 | keeps the instance exactly when no quota's first entry for the template has a time to live; otherwise deletes exactly after creation plus the one in force, and before that asks to be woken at that instant |
| Deadlines.TtlByEntries | controllers/clustertemplateinstance_controller.go:181-194 | there is no time to live exactly when no quota's first entry for the template sets one; otherwise it is that of the last quota whose first entry does |
| Deadlines.TimedRunIsRun | controllers/clustertemplateinstance_controller.go:123-132 | a life with its time to live looked after at every reconcile, failing listings and deletions included, is one of the lives everything is proved of |
| Deadlines.DeletedExactlyWhen | controllers/clustertemplateinstance_controller.go:175-209 | in such a life the instance is being deleted exactly when somebody asked for it or a look whose calls were carried out came strictly after creation plus the time to live in force at that look |
| Deadlines.KeptWithoutTtl | controllers/clustertemplateinstance_controller.go:192-194 | in a life in which no quota ever sets one and nobody asks for the deletion, the instance is never being deleted |
| Deadlines.LoginWindowIsAnchored | clustersetup/clustersetup.go:63-75 | over whole lives a login is reported pending only before the first recorded attempt plus the timeout |

## Left out

- Hub.Rely: in a pass every read is answered by the server; that a client serves it from a cache that lags behind is modelled for the two lists of a registration (Caches) and the two of a delete pass (Lagging) alone. Not modelled is an instance created again under the name of one that is gone, nor somebody else removing its kubeconfig or argo secret.
- Lifecycle.FetchSetups: the environment answers each named read of a pass once, so the day-1 application list is the same at its two reads within a pass; between passes it is free.
- Lifecycle.AddClusterToArgo: the service account, role, binding and token on the new cluster are one call with one outcome, and what the argo secret contains is not modelled.
- Lifecycle.CreateDay1: labelling the destination namespace is one call with one outcome.
- ApplicationSets.CreateDay1Application: the same, in its in-place form.
- Reconciler.ClusterTemplateInstanceReconciler.AddClusterToArgo: the calls on the new cluster are one call with one outcome, and the content of the argo secret is not modelled.
- Reconciler.ClusterTemplateInstanceReconciler.ReconcileClusterCredentials: the dynamic role and role binding are one call with one outcome.
- Lifecycle.PublishCredentials: the dynamic role and role binding are one call with one outcome, and a kubeconfig that parses has at least one cluster.
- Systems.Abort: a call that was under way when the operator died has either been handled before that or never is; it does not land after the restart.
- Lagging.DeletePassListed: an ApplicationSet is read from the present server; a write of an older copy would be refused for its version, one that is not shown at all would be passed over.
- Deletion.LeaveCluster: a deleted managed cluster, add-on or secret is gone at once; an object that lingers because of finalizers of its own is not modelled.
- Deadlines.DeletedExactlyWhen: the expired look goes on with its pass, whose status write is taken to be refused, the instance being no longer the one that was read.
- Reports.EveryPhaseIsAccountedFor: a failure that may come of the state of the server alone (definition, registration, import, add-on, argo cluster, setup creation, credentials) is accounted for by the configuration at most; what each of them says of its step is in Reports.EveryStepTells.
- Bridge.Step: what a fetch does on the network, and a fetch that panics.
- EnvVars.Subscription: finding the subscription, and the Argo CD instance, namespace and default secrets around it.
- Restarts.CLaaSReconciler: the process exit when a controller cannot be set up.
- The webhook's defaulting and the immutability check of updates: easy members; that the specification does not change is what makes Config constant.
- Messages of conditions, phases and setups: texts for the reader that gate nothing.
- The hypershift template reconciler's template data: its edits of ApplicationSets are the Retemplate, CreateSet and RemoveSet steps of SharedAppSets.
- Watches, leader election, request routing, HTTP, Git and Helm access, YAML and kubeconfig parsing, deepcopy code, RBAC objects, console plugin, quickstarts and command-line tools.
