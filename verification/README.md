# Reconciliation of in-cluster Postgres and OLM Operator resources

This project models the two managed resources of provider-in-cluster and proves what their controllers do over
whole histories of reconcile rounds, in which any API call may fail and any round may stop part way.

A Postgres resource owns three objects of one key: a PersistentVolumeClaim, a Deployment and a Service. `Create`
writes them in that order, `Delete` removes them in the opposite order, both stop at the first error, and
`Observe` judges existence by the Deployment alone. An Operator resource owns a Subscription, while `Observe`
judges existence by the ClusterServiceVersion (CSV) at the head of its channel.

The project has two layers.

* State machines on values (`PostgresLifecycle`, `OperatorLifecycle`): one round is a function of the state and of
  the round's inputs (the fault of every API call, input secrets, random bytes, assigned addresses). Runs
  interleave rounds with status changes, spec edits, catalog changes, installations and the request for
  deletion. All theorems about runs are about these machines.
* Imperative code (`Kubernetes.Collection`, `PostgresController`, `OperatorController`, `PostgresApi`): classes over
  a keyed store and over resources with pointers. Each method is proved to do to its own key exactly what the
  machine says and nothing to any other key, so the theorems hold of the code.

## Assumed contracts

* **Round driver** (`managed.NewReconciler` of crossplane-runtime v0.10.0): rounds for one resource are serial and
  start with `Observe`; its error ends the round. When deletion was requested, `Delete` is called if the resource
  exists, and otherwise the finalizer is removed; the Orphan policy skips the external calls. When it was not,
  the observed details are published, the finalizer is added, and then `Create` is called and its details
  published if the resource is absent, or `Update` if it is present and not up to date. Publishing merges into
  the connection secret. The status, with Ready set by `Observe`, is saved at the end of the round. Defaults that
  the driver persists with its own writes are a case of `EditSpec`.
* **API server**: reads are direct; a write has its effect or not, and separately reports success or not
  (`Works`, `FailsBefore`, `FailsAfter`). A crash between two calls is a lost next call together with a lost
  status. No other party edits or deletes the objects of a resource, except that the cluster sets the status of
  Deployments, and OLM and the catalog change CSVs and manifests freely.
* **`controllerutil.CreateOrUpdate`** of controller-runtime v0.6.2, for any mutate function.

## What the code does not promise

* docs/database.md:11 promises an output secret with five fields when the resource is finished. That fails if
  the write of the Service takes effect but reports an error: the resource becomes Ready and its credentials are
  never published (`ReadyWithoutCredentials`). It fails, too, if a publication is lost, or if only a round of a
  deletion sees the Service, which sets Ready without publishing the endpoint (`ReadyWhileDeleting`).
  `SecretIsFullIff` says exactly when all five fields are there.
* A Postgres whose Deployment exists without its Service never becomes Ready, and cannot be deleted while the
  Deployment is available (`CanConvergeIff`, `DeletionEndsIff`; reached by `StuckIsReachable`,
  `BlockedIsReachable`).
* The Postgres delete helpers take every failed Get for "already gone". One such failure can leave a Service behind
  a removed finalizer (`FailedReadLeavesService`). `FinalizerIsSafe` says for every run exactly which rounds leave
  the Service or the PVC behind, and `LadderHoldsIff` exactly which break the ladder.
* An Operator whose head CSV is not installed when its deletion is processed, or whose Subscription could not be
  removed together with that CSV, is released with its Subscription still there (`DeletionOutcome`,
  `FailedDeleteLeavesSubscription`). `SubscriptionIsRemovedIff` says for every run exactly when it goes.
* A failed read of the head CSV counts as its absence, so a single one releases an Operator that is being deleted
  with its CSV and its Subscription still there (`FailedReadReleases`). `OperatorRounds.IsReleasedIff` says for every
  run exactly when an Operator is released.
* Operators whose channels have the same head share one CSV, by which all of them are judged.
  `RoundsCommuteIff` says exactly when they disturb each other.

## Model

| member | source | states |
|---|---|---|
| PostgresLadder.CreateClimbs | pkg/controller/database/postgres/postgres.go:162-200 | wherever Create stops, it has only added objects and kept Service ⇒ Deployment ⇒ PVC; a nil error means all three exist |
| PostgresLadder.LadderIsALevel | pkg/controller/database/postgres/postgres.go:162-223 | the ladder makes the three objects as good as one number from 0 to 3 |
| PostgresLadder.CreateIsIdempotent | pkg/client/database/postgres/postgres.go:110-115 | after one successful Create, any further calls with any parameters, passwords and failures leave the objects unchanged |
| PostgresLadder.DeleteDescends | pkg/controller/database/postgres/postgres.go:210-224 | wherever Delete stops, it has only removed objects; with working reads it keeps the ladder, and a nil error means nothing is left |
| PostgresLadder.DeleteKeepsLadderIff | pkg/client/database/postgres/postgres.go:69-103 | the exact failures of the delete helpers that break the ladder |
| PostgresLadder.RunKeepsInvariant | pkg/controller/database/postgres/postgres.go:113-224 | ladder, finalizer protection and the meaning of a lone PVC are invariants of every run whose delete reads work |
| PostgresLadder.LadderAlwaysHolds | pkg/controller/database/postgres/postgres.go:162-224 | the ladder holds in every run of a fresh resource whose delete reads work, over all write failures and crashes |
| PostgresLadder.LadderHoldsIff | pkg/client/database/postgres/postgres.go:69-103 | with any failures, the exact rounds of a run that leave the ladder broken at its end |
| PostgresLadder.FinalizerIsSafe | pkg/controller/database/postgres/postgres.go:122-128 | when the finalizer is gone under the Delete policy no Deployment remains, and with any failures a Service or a PVC remains exactly if a step of the run stranded it; with working reads no Service does, and a PVC only if the last call failed |
| PostgresLadder.KeptObjectsIff | pkg/controller/database/postgres/postgres.go:162-200 | while a resource is kept, each of its three objects exists exactly if Create got far enough in some round of the run to store it |
| PostgresLadder.DeleteLeavesIff | pkg/controller/database/postgres/postgres.go:210-224 | exactly which objects one call of Delete leaves, and when it returns nil, for all failures |
| PostgresRounds.RoundRecords | pkg/controller/database/postgres/postgres.go:113-224 | exactly what one round does to the finalizer, the release and the record of its call, told from the failures it meets; what the user wrote is left alone |
| PostgresRounds.FinalizerIsAddedIff | pkg/controller/database/postgres/postgres.go:66-71 | a kept resource has its finalizer exactly if some round got past Observe and publishing and the write of it landed |
| PostgresRounds.IsReleasedIff | pkg/controller/database/postgres/postgres.go:122-128 | over any run, under either policy, a resource is gone exactly if some step met the condition for releasing it |
| PostgresRounds.LastCallIsTheLatest | pkg/controller/database/postgres/postgres.go:162-224 | the record of the last call tells how the latest Create or Delete of the run ended |
| PostgresLadder.RoundMoves | pkg/controller/database/postgres/postgres.go:113-224 | a round of a kept resource only climbs, and only without a Deployment; a round of a deletion only descends |
| PostgresLadder.RunContinues | pkg/client/database/postgres/postgres.go:110-115 | over any run every object stays what it was when first stored until deleted, and never comes back |
| PostgresLadder.OrphanedObjectsStay | pkg/controller/database/postgres/postgres.go:66-71 | a deletion under the Orphan policy leaves the objects alone |
| PostgresConvergence.Converges | pkg/controller/database/postgres/postgres.go:113-208 | from any state that is not stuck: one clean round, any failures after it, an available Deployment and a round that sees it lead to Ready |
| PostgresConvergence.CanConvergeIff | pkg/controller/database/postgres/postgres.go:122-150 | a kept resource can become Ready if and only if it is so already or does not have a Deployment without a Service |
| PostgresConvergence.StuckForever | pkg/controller/database/postgres/postgres.go:145-150 | a Deployment without a Service stays so through every run short of deletion, and Ready does not change |
| PostgresConvergence.RunKeepsLive | pkg/controller/database/postgres/postgres.go:113-208 | the number of missing objects never grows while the resource is kept, and Ready is never cleared |
| PostgresConvergence.CleanRoundCompletes | pkg/controller/database/postgres/postgres.go:162-200 | one clean round brings the number of missing objects to zero from any state without a Deployment |
| PostgresConvergence.StuckIsReachable | pkg/controller/database/postgres/postgres.go:187-190 | one lost write of the Service leads a fresh resource into the stuck state |
| PostgresConvergence.DeletionEndsIff | pkg/controller/database/postgres/postgres.go:139-150 | two clean rounds finish a deletion exactly when the state is not "Deployment available, Service absent" |
| PostgresConvergence.BlockedIsReachable | pkg/controller/database/postgres/postgres.go:187-190 | that state is reached from a fresh resource by one lost write of the Service |
| PostgresConvergence.BlockedForever | pkg/controller/database/postgres/postgres.go:145-150 | in that state, while the Deployment stays available, no run of rounds with any failures changes anything; edits and status changes leave the objects, the secret and Ready |
| PostgresConvergence.FailedReadLeavesService | pkg/client/database/postgres/postgres.go:93-103 | a run from a fresh resource in which one failed Get leaves the Service behind a removed finalizer |
| PostgresReadiness.ReadyIffSeen | pkg/controller/database/postgres/postgres.go:130-159 | Ready holds exactly when some earlier round saw the Service and an available Deployment and its status was saved |
| PostgresCredentials.CredentialsAlwaysAgree | pkg/controller/database/postgres/postgres.go:174-199 | in every run whatever the secret holds equals the environment of the stored Deployment, the address of the stored Service, and a port congruent to the Service's |
| PostgresCredentials.RunKeepsAgreement | pkg/controller/database/postgres/postgres.go:152-199 | that agreement is inductive, together with the secret's silence about objects that do not exist yet |
| PostgresCredentials.OnePassword | pkg/controller/database/postgres/postgres.go:174-186 | two Deployments stored at any two moments of one life carry the same password |
| PostgresCredentials.PasswordSource | pkg/controller/database/postgres/postgres.go:174-186 | a new Deployment carries the input secret's password if there is one to read, and else a UUID with the 122 random bits of the source, read back from it |
| PostgresCredentials.PasswordIsNeverEmpty | pkg/controller/database/postgres/postgres.go:175-181 | every Deployment of every run carries a password that is not empty |
| PostgresCredentials.NoFallbackIsUsed | pkg/controller/database/postgres/postgres.go:226-248 | after defaulting, Create writes and publishes the set values or the named defaults and never a nil fallback |
| PostgresCredentials.RunKeepsMade | pkg/client/database/postgres/postgres.go:133-295 | every stored object of every run is one built for the resource's own key |
| PostgresContents.RoundStores | pkg/client/database/postgres/postgres.go:133-295 | each object a round adds is the one for the spec: size, modes, class or "Standard", user or "postgres", database or user, wanted port or 5432, one pod that keeps its data on its own PVC, the assigned address |
| PostgresContents.StoredObjectsFitTheSpec | pkg/client/database/postgres/postgres.go:133-295 | over any run, every stored object was stored by some round of it and is the one for the spec of that moment |
| PostgresContents.RoundPublishes | pkg/controller/database/postgres/postgres.go:152-199 | exactly what a round does to the secret: four fields for the spec ("5432" for no port) with the stored password, or the address, or nothing |
| PostgresContents.CredentialsFitTheSpec | pkg/controller/database/postgres/postgres.go:192-199 | over any run, the credentials in the secret were published by some round of it, for the spec of that moment and with the password of the Deployment it stored |
| PostgresSecret.CreateSucceedsIff | pkg/controller/database/postgres/postgres.go:162-200 | exactly when Create returns details, and which fields they have |
| PostgresSecret.PublishedIff | pkg/controller/database/postgres/postgres.go:152-199 | over any run, the credentials and the endpoint are in the secret exactly if some round met the condition under which it publishes them |
| PostgresSecret.SecretIsFullIff | docs/database.md:11 | in every life, being deleted or not, all five fields are in the secret exactly if one round published the credentials and one, while the resource was kept, the endpoint; what is there agrees with the stored objects |
| PostgresSecret.ReadyMeansFullSecret | docs/database.md:11 | if failed writes of the Service have no effect and publications arrive, Ready means that the credentials are there, for a kept resource all five fields, and in a deletion all five exactly if a round had published the endpoint before |
| PostgresSecret.CredentialsArePublishedIff | pkg/controller/database/postgres/postgres.go:183-199 | the exact condition on the round that stored the Deployment under which the secret ever holds the credentials |
| PostgresSecret.ReadyWithoutCredentials | pkg/controller/database/postgres/postgres.go:188-190 | a run in which the resource is Ready and stays so without credentials |
| PostgresSecret.ReadyWhileDeleting | pkg/controller/database/postgres/postgres.go:155-159 | a round of a deletion can set Ready without publishing the endpoint |
| PostgresCredentials.PortsAgree | pkg/client/database/postgres/postgres.go:288 | the published port is read back as the spec's; the Service's equals it modulo 2^32, and exactly if and only if it fits 32 bits |
| PostgresFleet.HistoryProjects | pkg/client/database/postgres/postgres.go:69-115 | seen from one resource, a history of many resources with different keys is the run of its own steps |
| PostgresFleet.EventsCommute | pkg/client/database/postgres/postgres.go:69-115 | events of resources with different keys commute on the whole world |
| PostgresFleet.ClusterScopedKeysDiffer | apis/database/v1alpha1/postgres.go:74 | resources of scope Cluster never share a key: each owns the objects of its name in the namespace "default" |
| PostgresFleet.ClusterScopedIsolation | pkg/client/database/postgres/postgres.go:69-115 | so isolation holds of all stored resources with no hypothesis on keys: every history is for each of them the run of its own steps, and events of any two commute |
| PostgresFleet.ReferencesHold | pkg/client/database/postgres/postgres.go:163-295 | in every history each Service selects the pods of its own Deployment and no other, at a port they listen on; each Deployment runs one pod, keeps its data at the mount path on the PVC of its own key, and its selector is not empty and selects no other's pods; with working reads in Delete all claims, mounts and selectors resolve |
| PostgresFleet.ManagementIsExact | pkg/client/database/postgres/postgres.go:163-208 | a built Deployment selects the pods of a built Deployment if and only if their keys are equal |
| PostgresFleet.ReferencesHoldIff | pkg/client/database/postgres/postgres.go:69-103 | with any failures, the references of a stored Deployment resolve exactly if no round has removed the PVC past it |
| PostgresFleet.ClusterScopedReferencesHold | apis/database/v1alpha1/postgres.go:74 | ReferencesHold for all stored resources, with no hypothesis on keys |
| PostgresFleet.SelectionIsExact | pkg/client/database/postgres/postgres.go:276-295 | a built Service selects the pods of a built Deployment if and only if their keys are equal |
| Kubernetes.WritesAreAtomic | pkg/client/database/postgres/postgres.go:69-115 | exactly when a create, update or delete succeeds and what it leaves: a lost request nothing, a lost response what a success would |
| CreateOrUpdate.EnsureIsCreateIfAbsent | pkg/client/database/postgres/postgres.go:110-115 | with the no-op mutate the call never updates: it creates an absent object and otherwise only reads |
| CreateOrUpdate.ApplyStoresTheMutation | pkg/client/database/postgres/postgres.go:110-115 | for any mutate: success leaves the mutation and reports the write that happened, and a lost write leaves the cell alone |
| CreateOrUpdate.ApplyIsIdempotent | pkg/client/database/postgres/postgres.go:112 | for any mutate that settles, a successful call makes every later one a read |
| CreateOrUpdate.Perform | pkg/client/database/postgres/postgres.go:112 | the library call changes the store at its object's key as the cell function says, and nowhere else |
| PostgresController.PostgresClient.ReadInputSecret | pkg/client/database/postgres/postgres.go:117-131 | reads the password from the secret store as the specification says, with its error cases |
| PostgresController.PostgresClient.DeleteObject | pkg/client/database/postgres/postgres.go:69-103 | a delete helper: any failed Get is success without effect |
| PostgresController.IsAvailable | pkg/controller/database/postgres/postgres.go:131-137 | the loop with break finds an available condition if and only if there is one |
| PostgresController.External.Observe | pkg/controller/database/postgres/postgres.go:113-160 | defaults the resource, returns the specified observation, and sets Ready only when up to date |
| PostgresController.External.Create | pkg/controller/database/postgres/postgres.go:162-200 | the three stores change at the resource's key as the machine says and nowhere else |
| PostgresController.External.Update | pkg/controller/database/postgres/postgres.go:202-208 | nothing is updated and nothing is published |
| PostgresController.External.Delete | pkg/controller/database/postgres/postgres.go:210-224 | the three stores change at the resource's key as the machine says and nowhere else |
| PostgresController.Reconciler.Reconcile | pkg/controller/database/postgres/postgres.go:60-71 | one round changes the cluster and all resources exactly by the event of the machine |
| PostgresDefaults.DefaultingLaws | pkg/controller/database/postgres/postgres.go:226-248 | defaulting is idempotent, keeps every set field, and completes the rest with "Standard", "postgres", the final user name and 5432 |
| PostgresDefaults.InitializeDefaults | pkg/controller/database/postgres/postgres.go:226-248 | the assignments implement that on the resource; an unset database shares the user name's pointer |
| PostgresDefaults.DefaultElementOfCopy | apis/database/v1alpha1/zz_generated.deepcopy.go:71-130 | defaulting an element of a deep copy changes nothing that existed before the copy, nor other elements of it |
| PostgresDefaults.DefaultElementOfOriginal | apis/database/v1alpha1/zz_generated.deepcopy.go:71-130 | a deep copy keeps its values when an element of the original is defaulted |
| PostgresApi.PostgresParameters.DeepCopyInto | apis/database/v1alpha1/zz_generated.deepcopy.go:103-130 | equal values behind five fresh pointers, no two of them shared even when the original shared them |
| PostgresApi.Postgres.DeepCopyInto | apis/database/v1alpha1/zz_generated.deepcopy.go:29-35 | equal value, fresh pointees, no two of them shared, the original unchanged |
| PostgresApi.PostgresList.DeepCopyInto | apis/database/v1alpha1/zz_generated.deepcopy.go:71-82 | a nil slice stays nil; otherwise as many elements, equal in value, all they reach fresh, and no two of them reach any common memory |
| PostgresApi.CopyItems | apis/database/v1alpha1/zz_generated.deepcopy.go:75-81 | the index loop copies every element into fresh memory that no other copy reaches, pointees included |
| Managed.NamespaceLaws | pkg/controller/database/postgres/postgres.go:229-231 | a blank namespace becomes "default", any other is kept, and once is enough |
| Text.TrimSpaceIsEmptyIffBlank | pkg/controller/database/postgres/postgres.go:229 | trimming gives the empty string exactly for strings of white space |
| Text.ParseInvertsItoa | pkg/controller/database/postgres/postgres.go:196 | every integer is read back from its decimal text |
| Text.ItoaIsCanonical | pkg/controller/database/postgres/postgres.go:196 | the decimal text of an integer is the one string without leading zeros that is read as that integer |
| Text.Int32IsCongruent | pkg/client/database/postgres/postgres.go:288 | the 32-bit conversion is congruent modulo 2^32 and exact exactly on the 32-bit range |
| Text.ReplaceRemovesAllIff | pkg/client/database/postgres/postgres.go:66 | a bounded removal is complete exactly when the bound covers the occurrences |
| Password.UuidTextIsHexWithHyphens | pkg/client/database/postgres/postgres.go:61-67 | the textual UUID has four hyphens, and is the 16 bytes in hexadecimal without them |
| Password.PasswordDigits | pkg/client/database/postgres/postgres.go:61-67 | a generated password has 32 lower-case hexadecimal digits, two for every byte of the random source, the higher one first |
| Password.PasswordFixedDigits | pkg/client/database/postgres/postgres.go:61-67 | but for the version digit 4 and the two variant bits |
| Password.PasswordIsTheUuid | pkg/client/database/postgres/postgres.go:61-67 | 16 bytes are read back from a generated password, and they carry all 122 random bits of the source |
| Password.PasswordsAreDistinct | pkg/client/database/postgres/postgres.go:61-67 | two generated passwords are equal exactly if all 122 random bits are |
| OperatorLifecycle.FirstMatchIsFirst | pkg/client/olm/operator/operator.go:90-97 | the CSV found is that of the first entry of the channel |
| OperatorLifecycle.FirstMatchNoneIff | pkg/client/olm/operator/operator.go:90-97 | none is found if and only if no entry has the channel's name |
| OperatorProperties.RetriedCreateSucceeds | pkg/controller/olm/operator/operator.go:132-134 | a Create that is retried after a success or a lost answer succeeds and changes nothing |
| OperatorProperties.SubscriptionAsksForHead | pkg/client/olm/operator/operator.go:72-88 | the created Subscription asks for the very CSV by which Observe judges existence |
| OperatorProperties.DeletionIsOrdered | pkg/controller/olm/operator/operator.go:145-164 | the Subscription goes only after the head CSV unless the manifest or the entry is missing; nil means both are gone; no other CSV is touched |
| OperatorProperties.DeletionSucceedsIff | pkg/client/olm/operator/operator.go:111-133 | exactly when Delete returns nil, missing objects being errors here |
| OperatorProperties.RoundMoves | pkg/controller/olm/operator/operator.go:91-164 | a round of a kept resource can only add the Subscription of the current spec |
| OperatorProperties.RepeatedRoundsAreQuiet | pkg/controller/olm/operator/operator.go:126-135 | once the Subscription exists, any number of rounds that repeat Create leave the cluster as it is |
| OperatorProperties.RunContinues | pkg/controller/olm/operator/operator.go:126-135 | over any run the Subscription stays the one first created until deleted, and does not come back |
| OperatorProperties.SubscriptionHasAnOrigin | pkg/client/olm/operator/operator.go:72-84 | every Subscription of a run was stored by one of its rounds, with the spec of that round |
| OperatorProperties.ReadyIffSeen | pkg/controller/olm/operator/operator.go:106-123 | Ready holds exactly when some earlier round saw the CSV of the channel's first match in phase Succeeded |
| OperatorProperties.Converges | pkg/controller/olm/operator/operator.go:91-135 | a clean round leaves a Subscription unless the head CSV is there, and its success makes the resource Ready |
| OperatorProperties.DeletionOutcome | pkg/controller/olm/operator/operator.go:145-164 | two clean rounds release the resource exactly when the manifest resolves, and remove the Subscription exactly when the head CSV was installed |
| OperatorProperties.SubscriptionIsRemovedIff | pkg/controller/olm/operator/operator.go:145-164 | over any run of a deletion, the Subscription is gone exactly if it was not there or some round met the exact condition under which it is removed |
| OperatorRounds.DeleteLeavesIff | pkg/controller/olm/operator/operator.go:145-164 | exactly which CSV and whether the Subscription one call of Delete removes, for all failures |
| OperatorRounds.RoundDoes | pkg/controller/olm/operator/operator.go:91-164 | exactly what one round does to the cluster, the finalizer and the release, told from the failures it meets; a failed read of the head CSV counts as its absence |
| OperatorRounds.IsReleasedIff | pkg/controller/olm/operator/operator.go:100-119 | over any run, under either policy, an Operator is gone exactly if some step met the condition for releasing it, a failed read of the head CSV included |
| OperatorRounds.KeptIff | pkg/controller/olm/operator/operator.go:115-135 | a kept Operator has its finalizer exactly if some round added it, and its Subscription exactly if some round stored it, failed CSV reads included |
| OperatorRounds.SubscriptionIsProtected | pkg/controller/olm/operator/operator.go:46-58 | with any failures, no Subscription of a fresh Operator exists while it is neither finalized nor gone |
| OperatorRounds.FailedReadReleases | pkg/client/olm/operator/operator.go:99-109 | one failed read of the head CSV releases an Operator with its CSV and its Subscription still there |
| OperatorProperties.ReleaseTouchesNothing | pkg/controller/olm/operator/operator.go:100-119 | the round that removes the finalizer changes nothing else |
| OperatorProperties.FailedDeleteLeavesSubscription | pkg/controller/olm/operator/operator.go:155-163 | one lost write in Delete leaves the Subscription behind a removed finalizer |
| OperatorProperties.UnresolvedForever | pkg/controller/olm/operator/operator.go:100-104 | while the catalog does not know the package, no run of rounds of a deletion changes anything; installations leave the Subscription and Ready |
| OperatorFleet.RoundsCommute | pkg/controller/olm/operator/operator.go:91-164 | rounds of two Operators that do not interfere commute on the whole world, whatever fails in them |
| OperatorFleet.RoundsCommuteIff | pkg/controller/olm/operator/operator.go:91-164 | rounds of two Operators commute for all failures exactly if it is not so that both heads are one installed CSV, which one may remove while the other depends on it |
| OperatorController.OlmClient.CreateOperator | pkg/client/olm/operator/operator.go:72-84 | creates the Subscription at the resource's key and nothing else |
| OperatorController.OlmClient.ParsePackageManifest | pkg/client/olm/operator/operator.go:90-97 | the loop returns the CSV of the first matching channel |
| OperatorController.OlmClient.CheckCSV | pkg/client/olm/operator/operator.go:99-109 | any failed Get counts as absent |
| OperatorController.OlmClient.DeleteObject | pkg/client/olm/operator/operator.go:111-133 | get, then delete, with every failure reported |
| OperatorController.InitializeDefaults | pkg/controller/olm/operator/operator.go:166-174 | sets the namespace default and reports exactly that |
| OperatorController.External.Observe | pkg/controller/olm/operator/operator.go:91-124 | returns the specified observation and sets Ready only when the CSV succeeded |
| OperatorController.External.Create | pkg/controller/olm/operator/operator.go:126-135 | creates the Subscription; one that exists already is success |
| OperatorController.External.Delete | pkg/controller/olm/operator/operator.go:145-164 | the stores change as the machine says, and no other Subscription does |
| OperatorController.Reconciler.Reconcile | pkg/controller/olm/operator/operator.go:46-58 | one round does to the cluster and the resource what the machine says |

## Left out

- ReferencesHold: its second half supposes that the delete helpers' reads fail only with NotFound; `ReferencesHoldIff` does without.
- Connection setup, ProviderConfig lookup, REST configuration and controller registration: library calls and wiring.
- Pod listing and remote execution in pkg/controller/utils/utils.go: no lifecycle code uses them.
- `resource.ParseQuantity`: whether it accepts a size is an input of each round, and a PVC keeps the size as text.
- Probes, resource limits, port names and protocols of the built objects: constant data.
- The check that the managed resource has the expected Go type: typing rules it out here.
- Object metadata other than names and namespaces, conditions other than Ready, and `DeepCopyObject`.
- The reference to the connection secret: it is set, and is not edited during a run.
- Re-creation of a resource under the same name after its finalizer was removed: runs cover one life.
- Kubernetes beyond the store: PVC protection, garbage collection, scheduling, asynchronous deletion.
- Isolation of Operators over whole histories: CSVs are shared, so it is stated for pairs of rounds (`RoundsCommuteIff`).
