# Verification of the Supabase operator's reconcile loops

The operator keeps two kinds of custom resources in step with a Kubernetes cluster. A `SupabaseTenant` becomes
a namespace, a network policy, two secrets, a database, an init job, five deployments with their services and
an HTTP route. A `Supabase` becomes the shared platform that the tenants hang on. Both are level-triggered:
a pass reads, creates, patches and deletes objects one API call at a time, any call may fail (with or without
having taken effect), and passes are repeated for ever, several tenants at once.

This project models those loops and proves what they promise: what every API call of every interleaving keeps,
what a whole pass comes to, that a tenant gets ready and stays ready, that it can be suspended and resumed,
that it goes away completely, and exactly where these promises end.

`dafny verify dfyconfig.toml` checks everything.

## How it is built

| file | content |
|---|---|
| `Credentials.dfy` | the byte streams behind `SecretHash` and `ComputeSecretHash`, with the loops that write them |
| `Dsn.dfy` | the connection string printer, and a reader after sections 2.1 and 3.2 of RFC 3986 |
| `Objects.dfy`, `Tenants.dfy` | objects, labels, one API call on one object; names and wanted contents of a tenant's objects |
| `Machine.dfy` | one pass over a tenant as a machine: which call comes next, how it goes on after the answer |
| `Safety.dfy`, `Orders.dfy`, `Statuses.dfy`, `Endings.dfy` | invariants that every step, fault, crash and outside event keeps |
| `Contents.dfy`, `Built.dfy` | what written objects mean to those who read them, independent of how they are put together, and that in every run they do: environments, services, routes, host names, one database |
| `Reports.dfy` | what passes report, measured against what stands: phase, endpoint, reasons, delays |
| `Leftovers.dfy`, `Exact.dfy` | a tenant created again over what is left of an earlier one: what is safe, and that nothing else is |
| `Runs.dfy`, `Serial.dfy`, `Stains.dfy` | runs of many tenants over one store of named objects; isolation, serializability, the condition that nothing clears |
| `Passes.dfy`, `Outcomes.dfy` | what a fault-free pass comes to |
| `Repeats.dfy`, `Convergence.dfy`, `Finalization.dfy`, `Suspension.dfy`, `Rotation.dfy` | idempotence, suspend and resume, convergence, deletion, what the phase Suspended means, secret rotation |
| `Courses.dfy`, `Draws.dfy` | runs of one tenant, step by step; how a pass gets through the prerequisites and draws what is missing |
| `Recreation.dfy`, `Redraw.dfy` | two runs, from an empty store on, of a tenant created again too early |
| `Shared.dfy` | the one tenant whose namespace is the platform's |
| `Sessions.dfy`, `Calls.dfy`, `Components.dfy`, `Reconciler.dfy`, `Quiet.dfy` | the operator's own methods over a mutable store, proved to make exactly the calls of the machine |
| `Routing.dfy` | builders, label merging, the route table, the watch mapping |
| `Platform.dfy` | the platform reconciler: service chains, conditions, phase |

The machine and the methods are two views of one thing. `Machine` has one step per API call and sees a tenant
through *slots* (`Claim` for the custom resource, `Child(TJob)` for the init job, ...), so that its proofs
never meet a string. `Runs` maps slots to the real names and proves that the names keep tenants apart.
`Sessions.Session` is a mutable store whose `Call` accepts only the call that the machine makes next, so each
method of `Components` and `Reconciler` that verifies makes the machine's calls and no others, whatever faults
occur and whatever others do to the store between two calls.

## What turned out not to hold

Each of these has a lemma that states the exact condition, and where a run leads there, the run.

* A tenant created again while something of an earlier one of the same name is left. Nothing in the operator
  looks at leftovers. Without any fault, a tenant created again while its old namespace is closing has
  deployments without an init job (`Recreation.RecreatedWhileClosing`). After one failed read during the
  deletion, the old job outlives it, opens the gate for the new tenant, and new deployments carry a password
  that the job has never set (`Redraw.RecreatedOverJob`). What a user can check before creating the tenant
  again: if the old namespace is on its way out, that no init job and no route is left; otherwise, that a
  workload or a route stands only with everything it needs and a finished job, and a job only with both
  secrets. A database may be left in any case. That is exact, judged by what one sees in the cluster: from the
  creation on, gate and credential agreement hold whatever happens next if and only if the leftovers pass the
  check - with workloads in the closing namespace excepted from the gate, or, with the stricter check that
  none stands there, without exception (`Exact.CreationExact`; over whole runs `Exact.EveryRunExact`). A
  deletion that was not skipped or forced always ends in a state that passes
  (`Finalization.CompletedIsRecreatable`).
* Finalization does not look at the kind of a read error on the database or its job: a transient error counts
  as "nothing to delete", and the object outlives its tenant (`Finalization.SkippedSurvivesPass`). The finalizer
  is also removed at once when the parent cannot be read (`Endings.FinalizerRemovedLast`).
* Suspending a tenant whose prerequisites are not up does not scale it down (`Outcomes.UnpreparedNotSuspended`).
  A persisted phase Suspended does not mean that the workloads are silent: a failed read of a deployment counts
  as "nothing to scale" and even records the service as healthy. It means so exactly when each suspending call
  was answered or took effect (`Suspension.SuspendedExactly`).
* `docs/admin-guide.md:520-527` says that deleting a secret rotates it. The init job is create-only and keeps
  the old password and the old signing key. For any tenant in good order that has its init job, deleting a
  secret and letting a pass redraw it makes them disagree exactly when the draw differs
  (`Rotation.DeletedOutside`), and no pass that builds the tenant repairs that (`Rotation.SplitStays`).
* The condition of type "Ready" that an unresolved parent leaves behind is never cleared, not even by passes
  that report the phase Ready (`Stains.StainOfEveryRun`, `Repeats.OverallNeverCleared`).
* Database and job names are unique for one parent only. Across parents, the parents' names decide whether two
  tenants with admissible ids can collide (`Runs.DatabaseNamesClash`). A tenant called after the rest of the
  platform namespace shares that namespace, and deleting the tenant terminates the platform
  (`Runs.PlatformNamespaceTaken`, `Shared.PlatformGoesWithTenant`).
* A platform that is in phase Error because a component failed is not requeued and no error is returned
  (`Platform.StuckExactlyOnError`); a failing database cluster is enough (`Platform.SupabaseReconciler.Reconcile`).
* `ComputeSecretHash` writes no separators, so different secrets can hash alike: a family of such pairs is
  `Credentials.CombinedStreamAmbiguous`. Among maps of one shape its stream is injective
  (`Credentials.CombinedStreamInjective`).
* A blank in user or password does not survive the connection string, because the printer escapes for query
  strings (`Dsn.DsnRoundTrip`).
* A pass that read the custom resource before the deletion timestamp was set goes on creating objects. The
  claim that nothing is created any more therefore starts when no such pass is left (`Endings.NoResurrection`).

## Assumptions

* Reads are fresh. `tenantId` and `supabaseRef` do not change. Secrets are not deleted or edited from outside,
  except in `Rotation`.
* `Update` is refused when the contents of the stored resource differ from what was read. Kubernetes compares
  the resource version, which refuses at least in these cases.
* Signing and SHA-256 are arbitrary functions of their exact input; random material is drawn from an oracle
  that may fail.

## Model

| member | source | states |
|---|---|---|
| Credentials.SortStrings | internal/credentials/password.go:28 | sorting yields the ascending sequence of the same keys, in whatever order they arrived |
| Credentials.WriteTagged | internal/credentials/password.go:24-36 | the loop writes the tagged stream of the map's contents, whatever order the map is ranged over |
| Credentials.SecretHash | internal/credentials/password.go:23-38 | the hash is the first 16 digits over the tagged stream of the map's contents, independent of the order in which the map is ranged over |
| Credentials.ComputeSecretHash | internal/credentials/rotation.go:14-29 | the hash is taken over the concatenated streams of the maps, independent of map order |
| Credentials.SecretStreamDecodes | internal/credentials/password.go:30-36 | the tagged stream decodes back to the map exactly when no key holds '=' and no value a newline (and no key a newline) |
| Credentials.SecretStreamInjective | internal/credentials/password.go:30-36 | two separable maps with the same stream are equal |
| Credentials.SecretStreamAmbiguous | internal/credentials/password.go:30-36 | outside that condition two different maps can share a stream |
| Credentials.CombinedStreamInjective | internal/credentials/rotation.go:16-27 | among lists of maps with the same keys and the same value lengths the unseparated stream determines the maps |
| Credentials.CombinedStreamAmbiguous | internal/credentials/rotation.go:16-27 | without that condition it does not |
| Dsn.DsnRoundTrip | internal/components/tenant_context.go:74-83 | reading the printed connection string by RFC 3986 returns user and password if and only if neither holds a blank; every other part always |
| Dsn.Base64HasNoSpace | internal/credentials/password.go:12-18 | a generated password never holds a blank |
| Dsn.GeneratedPasswordSurvives | internal/components/tenant_context.go:74-83 | a generated password always comes back from the connection string |
| Machine.StepDescends | internal/controller/supabasetenant_controller.go:67-333 | every API call, whatever its answer, brings the pass closer to its end; a pass makes at most 112 calls |
| Safety.StepKeepsSound | internal/controller/supabasetenant_controller.go:67-333 | every API call of every pass, failing or not, keeps the gate, the credential agreement and what the pass remembers |
| Orders.HappeningKeepsOrderly | internal/controller/supabasetenant_controller.go:90-102 | whatever happens, on whatever leftovers, objects keep their kinds, a pass builds only behind the persisted finalizer and takes down only what is being deleted |
| Exact.CreationExact | internal/controller/supabasetenant_controller.go:95-102 | creating a tenant over leftovers whose credentials agree: gate and agreement, as seen in the cluster, hold from then on in every continuation without another creation if and only if the leftovers pass the check |
| Exact.EveryRunExact | internal/controller/supabasetenant_controller.go:67-345 | in every state of an interleaved run from before the first tenant, gate and agreement are there to stay for every tenant if and only if every creation passed the check |
| Exact.UncheckedFails | internal/components/tenant/database.go:145-160 | over leftovers that do not pass, a continuation breaks one of the two: at once, when the namespace is gone, or when a pass draws the missing secret |
| Leftovers.RecreatableCarries | internal/components/tenant/database.go:145-160 | a leftover job or deployment that passes this check carries what both stored secrets hold, or goes with its namespace |
| Leftovers.HappeningKeepsSecure | internal/controller/supabasetenant_controller.go:67-345 | with creation so checked, everything that can happen - calls with any fault, crashes, platform, user - keeps gate, agreement and what passes remember, closing namespaces included |
| Leftovers.HappeningKeepsStrict | internal/controller/supabasetenant_controller.go:67-345 | with the stricter check, everything keeps the gate without the exception for closing namespaces |
| Leftovers.HappeningKeepsHoused | internal/components/tenant/namespace.go:123-130 | nothing ever stands inside a namespace that is gone |
| Statuses.TypeTextsDistinct | api/v1alpha1/supabasetenant_types.go:40-48 | the condition types have different texts, so no record overwrites another |
| Statuses.ServiceTypeText | api/v1alpha1/supabasetenant_types.go:43-47 | the condition type of a service is named after it |
| Statuses.SetLeavesOthers | internal/controller/supabasetenant_controller.go:221-285 | recording one condition leaves the others as they were |
| Statuses.SetKeepsDistinct | internal/controller/supabasetenant_controller.go:221-285 | each condition type stays unique in the list |
| Statuses.HappeningKeepsTruthful | internal/controller/supabasetenant_controller.go:128-192 | whatever happens, a stored or pending `Ready` is backed by nine true and current conditions |
| Endings.NoStuckTenant | internal/controller/supabasetenant_controller.go:188-216 | a pass that neither requeues nor fails has found the finalizer gone, or has removed it |
| Endings.ChildNeedsFinalizer | internal/controller/supabasetenant_controller.go:95-102 | a child object appears only by a call of a working pass, and only while the finalizer is persisted |
| Endings.NoResurrection | internal/controller/supabasetenant_controller.go:90-93 | once the tenant is going and no earlier pass is at work, whatever happens only takes objects away |
| Endings.HappeningKeepsTakenDown | internal/controller/supabasetenant_controller.go:316-328 | what finalization has removed so far stays removed, whatever happens |
| Endings.FinalizerRemovedLast | internal/controller/supabasetenant_controller.go:288-333 | a pass removes the custom resource only after route, database and job are gone and the namespace is closing, or on one of the two escape paths |
| Finalization.SkippedSurvivesPass | internal/components/tenant/database.go:192-212 | an existing database, or init job, whose read fails during finalization is left as it is by the whole rest of the pass, with any faults |
| Runs.SlotsApart | internal/components/tenant_context.go:52-54 | within one tenant no two objects share a name |
| Runs.TenantsApart | internal/components/tenant/database.go:38-48 | nothing that one tenant owns has a name that a sibling reads or writes |
| Runs.DatabaseNamesCollide | internal/components/tenant/database.go:38-40 | a family of tenants of different parents, with admissible ids, that share a database name |
| Runs.DatabaseNamesCollideFor | internal/components/tenant/database.go:38-40 | a concrete pair of such tenants |
| Runs.DatabaseNamesClash | internal/components/tenant/database.go:38-44 | two parents can have tenants with admissible ids whose database or job names clash exactly when one parent's name extends the other's by the infix without its last character, or by the infix and something that a valid id can begin with |
| Runs.ClashIsCollision | internal/components/tenant/database.go:38-44 | such a clash is two objects under one key |
| Runs.PlatformNamespaceTaken | internal/components/tenant_context.go:52 | a tenant's namespace is the platform's own exactly for one tenant id |
| Runs.PlatformNamespaceDeleted | internal/components/tenant/namespace.go:123-130 | for that tenant, an effective delete call of finalization terminates the platform namespace |
| Shared.PlatformGoesWithTenant | internal/controller/supabasetenant_controller.go:288-333 | a fault-free pass over that tenant, once it is being deleted, removes its custom resource and leaves the platform namespace terminating |
| Runs.PlatformNamespaceUntouched | internal/components/tenant/namespace.go:123-130 | for every other tenant nothing that happens to it touches the platform namespace |
| Runs.OthersUntouched | internal/controller/supabasetenant_controller.go:343 | whatever happens to one tenant, its siblings' objects and passes stay as they are |
| Runs.EveryRunOrdered | internal/controller/supabasetenant_controller.go:67-345 | every state of every interleaved run: kinds, finalizer before passes, honest statuses, and what finalization took down; no condition on creation |
| Runs.EveryRunSafe | internal/controller/supabasetenant_controller.go:67-345 | all states of an interleaved run with checked creations are safe for every tenant |
| Runs.GateOfEveryRun | internal/controller/supabasetenant_controller.go:127-171 | in every run with checked creation, a workload or route of a tenant that is not being deleted has its namespace, policy, secrets, database and finished job, or stands in a closing namespace; with the stricter check always the former |
| Runs.CredentialsOfEveryRun | internal/components/tenant/storage.go:52-57 | in every run with checked creation the keys are signed by the stored signing key, the job has been given the stored password and key, and every deployment carries each stored credential under the variable by which its service looks for it, with connection strings that a reader takes to the tenant's database in the service's role |
| Contents.EnvWired | internal/components/tenant/functions.go:48-54 | for each of the five services, the environment holds every credential under its literal name, and its connection string parses to role, password, host, port and database |
| Built.HappeningKeepsOurs | internal/components/tenant/service_component.go:53-99 | whatever happens, every object keeps the parts that do not depend on the pass that wrote it |
| Built.ServicesOfEveryRun | internal/components/tenant/rest.go:87-97 | in every run a stored service selects the pods of its own stored deployment and of no other deployment of any tenant, and its port is the one they listen on |
| Built.RoutesOfEveryRun | internal/components/tenant/routing.go:55-92 | in every run a stored route has, for each service, a rule with that service's path to that stored service on a port it has, and no path falls under two rules |
| Built.HostsOfEveryRun | internal/components/tenant/routing.go:45 | in every run, whatever base domains the parent has had, no two tenants with admissible ids claim one host name |
| Built.HostsInjective | internal/components/tenant/routing.go:45 | under one parent two tenants have one host name exactly when they have one id |
| Built.GatewayOfEveryRun | internal/components/tenant/namespace.go:52-76 | in every run the gateway that a stored route hangs on is in the namespace that the stored network policy lets in |
| Built.DatabaseOfEveryRun | internal/components/tenant/database.go:50-128 | in every run the stored job works on the database that the stored database object declares, on that object's cluster |
| Built.UrlsOfEveryRun | internal/components/tenant_context.go:74-83 | in every run with checked creation the connection strings lead to the database that the stored job has worked on |
| Runs.ReadyOfEveryRun | internal/controller/supabasetenant_controller.go:182-192 | in every run a persisted `Ready` has nine conditions, unique, true, at the same generation |
| Runs.FinalizerOfEveryRun | internal/controller/supabasetenant_controller.go:95-102 | in every run, created on whatever leftovers, a child appears only at the hands of the tenant's own pass and with the finalizer persisted before |
| Runs.DeletionOfEveryRun | internal/controller/supabasetenant_controller.go:288-333 | over any continuation of a run a tenant on its way out only loses objects |
| Serial.EventsCommute | internal/controller/supabasetenant_controller.go:343 | calls of different tenants can be swapped without any effect on store or passes |
| Serial.Serializable | internal/controller/supabasetenant_controller.go:343 | any interleaving ends in the very state of running the tenants one after the other, in any order |
| Serial.SerializableBetween | internal/controller/supabasetenant_controller.go:343 | with a parent that changes meanwhile, the same holds between any two of its changes |
| Passes.BurstKeepsSound | internal/controller/supabasetenant_controller.go:67-333 | a pass cut short anywhere keeps the invariant |
| Passes.BurstEnds | internal/controller/supabasetenant_controller.go:67-333 | every pass comes to an end |
| Passes.CalmComponentSteady | internal/controller/supabasetenant_controller.go:221-285 | each call of a fault-free pass leaves the objects done so far as wanted, the others untouched, and the recorded conditions equal to the cluster's health |
| Outcomes.PassOutcome | internal/controller/supabasetenant_controller.go:124-192 | a fault-free pass deals with every object and reports what the cluster shows if the prerequisites are up, and otherwise stops before any workload |
| Outcomes.UnpreparedNotSuspended | internal/controller/supabasetenant_controller.go:137-147 | a suspended tenant without its prerequisites keeps deployments and route as they are, in phase Provisioning |
| Reports.ReadyExactly | internal/components/tenant/service_component.go:112-121 | a full pass over an active tenant reports Ready exactly when every deployment it leaves has the preset's replicas, all of them ready, and Provisioning otherwise |
| Reports.FullContents | internal/controller/supabasetenant_controller.go:182-192 | whatever of each kind it found, a full pass leaves workloads with the preset's number of replicas and the specification's settings, and reports the host name of the stored route and the namespace of the stored workloads |
| Reports.ActivePass | internal/controller/supabasetenant_controller.go:124-192 | the same of any fault-free pass over an active tenant whose prerequisites are up, with every service in front of its own pods only |
| Reports.ParentMissing | internal/controller/supabasetenant_controller.go:104-122 | without its parent, a fault-free pass changes nothing but the status: phase Error, the extra condition false, all others as before |
| Reports.ConditionTells | internal/controller/supabasetenant_controller.go:221-285 | the reason of a recorded condition tells a failed healthcheck read, a failed reconciliation, an answered negative check and a positive one apart; a service is found healthy exactly with replicas that are all ready |
| Reports.EndTells | internal/controller/supabasetenant_controller.go:211-216 | a pass comes again after five minutes exactly when it has stored Ready, at once exactly when it has stored the finalizer, and after ten or fifteen seconds in the cases listed |
| Reports.DeletingShown | internal/controller/supabasetenant_controller.go:288-299 | from its second call on, wherever it is cut, a fault-free finalization leaves the stored phase Deleting until the resource is gone |
| Repeats.Idempotent | internal/controller/supabasetenant_controller.go:124-192 | a second fault-free pass changes nothing, persisted status included |
| Stains.LostStains | internal/controller/supabasetenant_controller.go:110-121 | a parent that cannot be read leaves the false condition in the status that the pass writes |
| Stains.HappeningKeepsStain | internal/controller/supabasetenant_controller.go:113-119 | the condition left by an unresolved parent stays, false, through every call of every pass and every outside event, until the tenant is created anew |
| Stains.StainOfEveryRun | internal/controller/supabasetenant_controller.go:113-119 | and so over every continuation of a run |
| Repeats.OverallNeverCleared | internal/controller/supabasetenant_controller.go:113-119 | a fault-free full pass leaves it exactly as it was, even when it reports Ready |
| Repeats.SuspendedPass | internal/components/tenant/service_component.go:36-51 | a suspended pass scales every existing deployment to zero, removes the route, creates nothing but missing prerequisites and leaves the rest alone |
| Suspension.SuspendedExactly | internal/controller/supabasetenant_controller.go:173-192 | a pass with any faults that reports Suspended leaves all deployments without replicas and no route exactly when each suspending call was answered or took effect |
| Repeats.SuspendResume | internal/components/tenant/service_component.go:36-99 | active, suspended and active passes restore every object of the first, up to ready counts |
| Repeats.ExpectedAgain | internal/controller/supabasetenant_controller.go:221-285 | recording the same health again leaves the list of conditions as it is |
| Convergence.FaultsDoNotSetBack | internal/controller/supabasetenant_controller.go:95-216 | no pass over a live tenant increases the distance to ready, whatever faults it meets and wherever it is cut short |
| Convergence.CalmPassCounts | internal/controller/supabasetenant_controller.go:95-216 | after a fault-free pass the tenant is one level closer once the platform has caught up, or, at the last level, reported ready |
| Convergence.CalmRound | internal/controller/supabasetenant_controller.go:95-216 | a fault-free pass followed by a cooperating platform decreases the distance, or has the tenant reported ready |
| Convergence.HelpfulThrives | internal/controller/supabasetenant_controller.go:95-216 | no call of a pass with any fault, no crash and no move of the platform that undoes nothing increases it, at any point of a pass |
| Convergence.Converges | internal/controller/supabasetenant_controller.go:95-216 | in any history of failing calls, crashes, platform moves and fault-free passes, after as many rounds (a fault-free pass, and later the platform has caught up) as the first distance, at most four, every fault-free pass leaves the tenant Ready |
| Convergence.FullDeployment | internal/components/tenant/service_component.go:53-73 | after a full pass every deployment has the preset's replicas, and as many ready as before |
| Finalization.FinalizationCompletes | internal/controller/supabasetenant_controller.go:288-333 | from any partially deleted state one fault-free pass finishes the job |
| Finalization.PartialPass | internal/controller/supabasetenant_controller.go:316-328 | a pass whose reads are answered, with failing writes and cut short anywhere, never loses the custom resource early and never adds to what is left |
| Finalization.FinalizationRestarts | internal/controller/supabasetenant_controller.go:288-333 | after any number of such passes a fault-free one finishes |
| Finalization.CompletedIsRecreatable | internal/controller/supabasetenant_controller.go:316-332 | a finished deletion leaves nothing that makes creating the tenant again unsafe |
| Recreation.RecreatedWhileClosing | internal/controller/supabasetenant_controller.go:316-332 | a fault-free run in which a tenant created again too early has a deployment but no init job |
| Redraw.RecreatedOverJob | internal/components/tenant/database.go:202-209 | a run with one failed read in which the old job survives, opens the gate for the new tenant, and disagrees with the new credentials |
| Rotation.DeletedOutside | internal/components/tenant/secret.go:110-165 | a healthy tenant whose secret is deleted from outside: job and secrets agree before, and after the next pass has redrawn it they disagree exactly when the draw differs |
| Rotation.DeletingSecretSplits | internal/components/tenant/secret.go:137-162 | after deleted database credentials are redrawn they disagree with the init job's password exactly when the draw differs |
| Rotation.DeletingKeySplits | internal/components/tenant/secret.go:111-130 | after a deleted signing key is redrawn it disagrees with the parameters of the init job's SQL exactly when the draw differs |
| Rotation.CreateOnly | internal/components/tenant/database.go:145-160 | no call of a pass changes an existing secret or job, except the removal of the job by finalization |
| Rotation.SplitStays | internal/components/tenant/database.go:145-160 | no working pass repairs either disagreement |
| Sessions.Session.Call | internal/controller/supabasetenant_controller.go:78 | one API call: the store changes as the machine's step says, the pass goes on as it does, and the answer reflects the store |
| Sessions.SessionIsReplay | internal/controller/supabasetenant_controller.go:67-333 | a session is the machine, call by call, in its world of faults and interference |
| Sessions.OrdinaryIsBenign | internal/controller/supabasetenant_controller.go:343 | any number of changes between two calls of a pass - by platform, user, sibling tenants and the parent - keep the tenant safe |
| Sessions.SessionSecure | internal/controller/supabasetenant_controller.go:67-333 | a session keeps the tenant safe at every point when the others do |
| Components.NamespaceComponent.Reconcile | internal/components/tenant/namespace.go:79-109 | namespace, then policy; where the pass stands afterwards, for every answer |
| Components.NamespaceComponent.Healthcheck | internal/components/tenant/namespace.go:111-121 | an answered check is positive exactly when the stored namespace is active |
| Components.NamespaceComponent.Finalize | internal/components/tenant/namespace.go:123-130 | namespace deletion, with the errors that end the pass |
| Components.SecretComponent.EnsureSecret | internal/components/tenant/secret.go:112-130 | an existing secret is taken over, a missing one is drawn and created once |
| Components.SecretComponent.Reconcile | internal/components/tenant/secret.go:110-165 | afterwards the shared context holds exactly the credentials and the hash of the two secrets |
| Components.SecretComponent.Healthcheck | internal/components/tenant/secret.go:167-179 | both secrets are looked for |
| Components.DatabaseComponent.Reconcile | internal/components/tenant/database.go:130-163 | database, then job, both created once |
| Components.DatabaseComponent.Healthcheck | internal/components/tenant/database.go:165-190 | ready exactly when the database is not refused and the job has succeeded |
| Components.DatabaseComponent.Finalize | internal/components/tenant/database.go:192-212 | database, then job; any read error counts as gone |
| Components.TenantServiceComponent.Reconcile | internal/components/tenant/service_component.go:36-99 | scale to zero when suspended, otherwise create or overwrite deployment and service; on success the stored service has the three selector labels and the port of this very service |
| Components.TenantServiceComponent.EstablishDeployment | internal/components/tenant/service_component.go:53-73 | on success the stored deployment holds every credential under its name, the digest and the preset's replicas |
| Components.TenantServiceComponent.Healthcheck | internal/components/tenant/service_component.go:101-122 | healthy without a call when suspended; otherwise an answered check is positive exactly when the stored deployment has replicas and as many of them ready |
| Components.RoutingComponent.Reconcile | internal/components/tenant/routing.go:109-139 | route deleted when suspended, otherwise created or overwritten; on success the stored route is for the tenant's own host name and has a rule to each of its services |
| Components.RoutingComponent.DeleteHTTPRoute | internal/components/tenant/routing.go:162-172 | a missing route is no error |
| Components.RoutingComponent.Healthcheck | internal/components/tenant/routing.go:141-156 | the route exists, or the tenant is suspended |
| Components.RoutingComponent.Finalize | internal/components/tenant/routing.go:158-172 | route deletion, with the errors that end the pass |
| Components.CreateIfMissing | internal/components/tenant/namespace.go:81-92 | get, then create what is not found |
| Components.CreateOrPatch | internal/components/tenant/service_component.go:54-73 | get, then create what is not found or overwrite the fields of what is |
| Reconciler.ReconcileTenantComponent | internal/controller/supabasetenant_controller.go:221-285 | the condition recorded in memory is the verdict that the machine reaches, for every combination of errors |
| Reconciler.ReconcilePrerequisites | internal/controller/supabasetenant_controller.go:128-147 | the loop goes on to the services only past three healthy prerequisites, and otherwise parks with the status to write |
| Reconciler.ReconcileServices | internal/controller/supabasetenant_controller.go:161-167 | all five services get their turn; the result is true when all are ready |
| Reconciler.Conclusion | internal/controller/supabasetenant_controller.go:169-216 | routing, phase, final status and requeue delay |
| Reconciler.Finalize | internal/controller/supabasetenant_controller.go:288-333 | the deletion path ends as the machine does |
| Reconciler.ReconcileClaim | internal/controller/supabasetenant_controller.go:76-122 | read, deletion, finalizer, parent: each branch ends as the machine does |
| Reconciler.Reconcile | internal/controller/supabasetenant_controller.go:67-217 | a whole pass leaves the store and the result that the machine leaves, in any world |
| Quiet.LonelySession | internal/controller/supabasetenant_controller.go:67-333 | with nobody else around the method has the effect of a pass of the machine, so the results on whole passes apply to it |
| Quiet.TicksWhole | internal/controller/supabasetenant_controller.go:67-333 | in a world without faults that pass is a whole fault-free one |
| Routing.MergeLabels | internal/resources/builder.go:135-143 | the nested loops compute the merge, whatever order the maps are ranged over |
| Routing.MergedLast | internal/resources/builder.go:135-143 | the last map that has a key decides, and no other key appears |
| Routing.MergedSelected | internal/resources/builder.go:71-77 | a selector matches the merged pod labels exactly when the two maps agree where they overlap |
| Routing.DeploymentBuilder.Build | internal/resources/builder.go:59-83 | the built deployment has the fields given to the builder and the merged pod labels |
| Routing.BuildDeployment | internal/components/tenant/storage.go:39-105 | the builder calls of a tenant service yield the deployment that the machine wants, with every credential under its name, the digest and the preset's replicas |
| Routing.BuildService | internal/components/tenant/rest.go:87-97 | the service object selects by instance, component and tenant of this very service, on its port |
| Routing.BuildHTTPRoute | internal/components/tenant/routing.go:39-107 | the loop over the literal table yields a route for the tenant's own host name with one rule per service, with its name, namespace and port |
| Routing.RouteBackends | internal/components/tenant/routing.go:55-86 | each rule names exactly one of the tenant's services and no other object, on a port that the service has and its container listens on |
| Routing.SelectorMatchesOne | internal/resources/labels.go:29-34 | a service's selector matches the pods of its own deployment and of no other |
| Routing.RoutePathsApart | internal/components/tenant/routing.go:55-61 | no request path matches two rules |
| Routing.MapByTenantLabel | internal/controller/supabasetenant_controller.go:347-362 | the handler returns the first listed tenant with the label's id, if any |
| Routing.MappingInvertsLabelling | internal/controller/supabasetenant_controller.go:347-362 | every listed tenant is found by its id, in any order of the list, exactly when ids are unique |
| Routing.BuiltIsLabelled | internal/resources/labels.go:23-27 | every object that a pass creates or overwrites carries its tenant's id |
| Routing.BuiltMapsBack | internal/controller/supabasetenant_controller.go:347-362 | with unique ids a built object maps back to its own tenant only |
| Platform.ApiServer.Create | internal/components/platform/service_component.go:63-67 | a creation, failing or not, keeps every state chained |
| Platform.ApiServer.Patch | internal/components/platform/service_component.go:96-102 | so does a patch |
| Platform.ServiceComponent.Put | internal/components/platform/service_component.go:84-102 | get, then create or overwrite; on success the object has the wanted fields |
| Platform.ServiceComponent.Reconcile | internal/components/platform/service_component.go:45-132 | after every call a service has its deployment and a deployment its config map; on success all parts are as wanted; a disabled service and all other services are left as they are |
| Platform.ServiceComponent.Healthcheck | internal/components/platform/service_component.go:134-155 | an answered check is positive exactly when the service is disabled, or all its replicas are ready and at least one |
| Platform.SupabaseReconciler.ReconcileComponent | internal/controller/supabase_controller.go:193-252 | the verdict accounts for every call made: ReconcileError and HealthcheckError exactly after a call that failed, otherwise healthy exactly when the stored deployment was staffed at the check |
| Platform.SupabaseReconciler.ReconcileServices | internal/controller/supabase_controller.go:142-159 | five services in turn, each whatever becomes of the others; every verdict accounts for its service's calls, and every enabled service that could be put in place stands at the end, all of it |
| Platform.NamedAfter | internal/controller/supabase_controller.go:100-109 | the condition recorded for a service is the one named after it |
| Platform.NoteCriticals | internal/controller/supabase_controller.go:112-138 | conditions, failure flags and database flag after the critical components |
| Platform.SupabaseReconciler.UpdateStatus | internal/controller/supabase_controller.go:254-271 | what is stored, and the next pass after 300 seconds when Ready, 30 when Provisioning or Degraded, and none otherwise |
| Platform.SupabaseReconciler.Reconcile | internal/controller/supabase_controller.go:63-175 | the stored status is the one that the verdicts warrant, its flags are the conditions beside them, the services are as the verdicts say; a critical failure leaves the services alone; a preflight failure is an error; a service without replicas excludes Ready; a failing database leaves the pass without requeue or error |
| Platform.ReadyIffAllTrue | internal/controller/supabase_controller.go:112-174 | the phase is Ready exactly when all eight conditions are true at the current generation |
| Platform.PhaseCases | internal/controller/supabase_controller.go:275-287 | otherwise it is Error, Degraded or Provisioning exactly by (some error, database healthy) |
| Platform.DatabaseReadyIsSeen | internal/controller/supabase_controller.go:165-167 | the stored database and gateway flags are what the loop saw |
| Platform.SkippedKeepConditions | internal/controller/supabase_controller.go:140-163 | a critical failure leaves the services' conditions as they were |
| Platform.UnstaffedNeverReady | internal/components/platform/service_component.go:145-154 | a resource with an enabled service of zero replicas is never reported Ready, whatever else its pass comes to |
| Platform.StuckExactlyOnError | internal/controller/supabase_controller.go:263-270 | nothing brings the next pass exactly when a component failed while the database was not healthy |

## Left out

- Runs.Run: stale cache reads are not modelled; every read answers with the stored object.
- Components.DatabaseComponent.Reconcile: rendering the init SQL does not fail; the SQL itself is represented by its parameters.
- Reconciler.ReconcileTenantComponent: the branch for components that ask for a requeue (internal/controller/supabasetenant_controller.go:242-251) is not there, because no tenant component takes it.
- Routing.DeploymentBuilder.Build: of a container only the port, the environment variables that carry credentials or lead to the database, and the public address are modelled; images, volumes, resources and the other options stand in one text that is copied through.
- Routing.BuildDeployment: the same holds for what the five builders put into a container.
- Platform.NoteCriticals: the critical components (database cluster, backup, gateway) are reduced to the verdicts that they return; what they write is not modelled.
- Platform.SupabaseReconciler.Reconcile: those verdicts and the outcome of the preflight calls are inputs.
- Platform.ApiServer.Create: platform objects are named by service and part, the names being fixed suffixes of the instance name; owner references are not modelled.
- Condition messages, transition times, events, metrics and logs, which nothing reads back.
- Finalizers of other controllers on the custom resource: the resource goes when the operator's finalizer does.
- The list call that counts tenants for metrics (internal/controller/supabasetenant_controller.go:194-210).
- SHA-256, token signing and the random source as such.
- Manager wiring, flags, certificates, leader election, generated code and manifests.
