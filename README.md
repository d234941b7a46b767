# Bucket controller of px-object-controller, modelled in Dafny

px-object-controller is a Kubernetes controller. It turns `PXBucketClaim` objects into buckets on an
object-storage backend that it reaches over gRPC. Each claim names a cluster-scoped `PXBucketClass`,
and the class supplies the region, the deletion policy and the backend type. A `PXBucketAccess` object
asks for credentials to a bucket. The credentials go into a Kubernetes secret.

This project models the controller's core:

- The watch handler (`enqueueBucketWork`) turns a notification into a `namespace/name` key.
- The worker (`bucketWorker`) takes one key from a rate-limited work queue, reconciles it, and then
  does one of two things. After an error it re-adds the key with exponential backoff. After success
  it forgets the key's failures.
- The reconcile step (`processBucket`) handles a claim the lister still has. It resolves the claim's
  class and provisions a bucket for it. For a claim that is gone, it tears down the copy the controller
  kept in its local fallback store.
- The operations of `operation.go`:
  - bucket create and delete;
  - driver selection;
  - the deterministic account and secret names;
  - access grant and revoke.

## Modules

- `Records` holds the records the controller reads and writes: class, claim, access, backend request
  and reply, and the error tags. It also holds `State`, a snapshot of everything the controller can
  observe apart from its queue:
  - the lister's cache;
  - the API server's claims, classes and accesses;
  - the two fallback stores;
  - the secrets;
  - the log of every backend call with its reply.
- `Keys` holds the object key `namespace/name` and its split back into parts.
- `WorkQueue` models the rate-limited queue. It is pure functions over `QueueState` with lemmas
  about them, plus a class `Queue` whose methods are proved against those functions.
- `Operation` holds:
  - the pure helpers of `operation.go`;
  - one relation per state-changing operation (`CreateBucketStep`, `DeleteBucketStep`,
    `CreateAccessStep`, `RevokeAccessStep`) that fixes the whole new state for every outcome;
  - the invariant `Consistent`: every entry of a fallback store sits under its own key and is backed
    by a successful backend call in the log. Each relation is proved to keep it.
- `Controller` holds the class `Controller`. Its fields are the maps of `State`. Its methods carry
  the reconcile step, the worker, the watch handler and the operations of `operation.go`.

The outside world becomes helper methods of the class, whose bodies choose success or failure
arbitrarily. This covers the lister, the class List and Get, the API server's Update, the backend
RPCs, and the secret Get, Create and Delete. So each operation is proved against a relation over the
state before and after it, and the lemmas state the controller's promises about those relations.

Some behaviours of the code are easy to misread. The model follows the code in each case:

- The reconcile step never checks whether a claim is already provisioned. Every reconcile of a listed
  claim whose class resolves calls CreateBucket again, provisioned or not
  (`Controller.ReconcileRepeatsCreate`). A claim without a class reference
  (`Controller.NoClassReferenceNoCall`), or whose class List or Get fails
  (`Controller.ReconcileClaimStep`), returns before any backend call.
- `revokeAccess` keeps the access in its fallback store in two cases: the credentials secret is
  already gone, or deleting it fails (`pkg/controller/operation.go:187-193`).
- `createAccess` leaves an existing credentials secret as it is. The comment at
  `pkg/controller/operation.go:128` says it updates it.
- The flag help at `cmd/px-object-controller/main.go:80-81` promises a start interval of 1 second
  and a maximum of 5 minutes. But `cmd/px-object-controller/main.go:157-159` builds the controller
  config without either interval. So the rate limiter starts at a zero delay, and every retry is
  re-added at once (`WorkQueue.ZeroStartRetriesAtOnce`).
- The controller tests a pointer for `Spec.BucketClassName` (`pkg/controller/controller.go:163`),
  so the model has `Option<string>`. The test helper at `test/integration/util/util.go:55` assigns
  that field as a plain value.

## Model

| member | source | states |
|---|---|---|
| Records.Param | pkg/controller/operation.go:69 | a class parameter lookup gives the parameter's value, or the empty string when the class does not set it |
| Records.PolicyStringInjective | pkg/controller/operation.go:32 | the deletion policy is a Go string compared against "Retain": each string has exactly one policy value standing for it, so the string "Retain" is always `Retain` |
| Keys.SplitKey | pkg/controller/controller.go:154-159 | a key is malformed exactly when it holds two or more '/'; otherwise a key without '/' is a bare name and a key with one '/' is namespace + "/" + name, and neither part holds '/' |
| Keys.ObjectKey | pkg/controller/controller.go:216 | the key of an object: "namespace/name", or the bare name when the namespace is empty |
| Keys.SplitObjectKey | pkg/controller/controller.go:154-159 | the key of an object whose namespace and name hold no '/' splits back into exactly that namespace and name |
| Keys.ObjectKeyOfSplit | pkg/controller/controller.go:154-159 | joining the parts of a well-formed key gives the key back, unless the key starts with '/' |
| WorkQueue.Wf | pkg/controller/controller.go:109 | the queue invariant: no key queued twice, and the queue holds exactly the keys that need work and are not held by a worker |
| WorkQueue.Added | pkg/controller/controller.go:222 | Add: nothing changes while shutting down or for a key already marked; a key held by a worker is only marked; any other key is marked and appended |
| WorkQueue.Taken | pkg/controller/controller.go:132 | Get: the head key leaves the queue and its mark and becomes held |
| WorkQueue.Finished | pkg/controller/controller.go:136 | Done: the key is no longer held, and is appended again if it was marked meanwhile |
| WorkQueue.Delay | pkg/controller/controller.go:104 | the backoff for a key with `exp` earlier failures: the start interval doubled `exp` times, capped at the maximum |
| WorkQueue.AddedAfter | pkg/controller/controller.go:142 | a delayed add: nothing while shutting down, an immediate Add for a zero delay, otherwise one more timer |
| WorkQueue.RateLimited | pkg/controller/controller.go:142 | AddRateLimited: the key's failure count goes up by one, and the key is added after the backoff of the previous count |
| WorkQueue.Forgotten | pkg/controller/controller.go:147 | Forget: the key's failure count is removed |
| WorkQueue.Fired | pkg/controller/controller.go:142 | a due timer is removed and its key added |
| WorkQueue.AfterWork | pkg/controller/controller.go:131-149 | one worker round on the head key: Get, then Forget after success or AddRateLimited after a failure, then Done |
| WorkQueue.AddedWf | pkg/controller/controller.go:222 | Add keeps the queue free of duplicates and holding exactly the keys that need work and are not held by a worker |
| WorkQueue.TakenWf | pkg/controller/controller.go:132 | Get keeps the same queue invariant |
| WorkQueue.FinishedWf | pkg/controller/controller.go:136 | Done on a held key keeps the same queue invariant |
| WorkQueue.RateLimitedWf | pkg/controller/controller.go:142 | AddRateLimited keeps the same queue invariant |
| WorkQueue.FiredWf | pkg/controller/controller.go:142 | a retry timer falling due keeps the same queue invariant |
| WorkQueue.AddDeduplicates | pkg/controller/controller.go:222 | adding a key twice is the same as adding it once; the key is then marked, and it is put in the queue exactly when no worker holds it |
| WorkQueue.AddWhileProcessing | pkg/controller/controller.go:222 | a key added while a worker holds it is not queued for a second worker, and is queued again once the first worker calls Done |
| WorkQueue.TakenNotInFlight | pkg/controller/controller.go:132 | the key Get hands out is not held by another worker |
| WorkQueue.DelayAtMostMax | pkg/controller/controller.go:104 | the backoff never exceeds the maximum retry interval |
| WorkQueue.DelayStart | pkg/controller/controller.go:104 | the first retry waits the start interval, or the maximum when that is smaller |
| WorkQueue.DelayDoubles | pkg/controller/controller.go:104 | each further consecutive failure doubles the backoff, capped at the maximum |
| WorkQueue.DelayMonotone | pkg/controller/controller.go:104 | more consecutive failures never shorten the backoff |
| WorkQueue.RetryCountAndReset | pkg/controller/controller.go:142-147 | AddRateLimited counts one more failure; Forget resets the count, so the next failure waits the start interval again |
| WorkQueue.ZeroStartRetriesAtOnce | pkg/controller/controller.go:104 | with a zero start interval a failed key is re-added at once and no timer is started |
| WorkQueue.AfterWorkReleases | pkg/controller/controller.go:131-149 | after a worker round the key is no longer held. Success clears its failure count and leaves the key out of the queue. A failure counts one more and either re-queues the key at once (zero backoff) or starts one timer with the backoff and leaves the key out of the queue |
| WorkQueue.Queue.constructor | pkg/controller/controller.go:104-109 | a new queue is empty and keeps the start and maximum retry intervals |
| WorkQueue.Queue.Add | pkg/controller/controller.go:222 | the queue state becomes the deduplicating Add of the key |
| WorkQueue.Queue.Get | pkg/controller/controller.go:132-135 | hands out the head key and marks it held, or signals quit on an empty queue that is shutting down |
| WorkQueue.Queue.Done | pkg/controller/controller.go:136 | releases a held key and re-queues it if it was added meanwhile |
| WorkQueue.Queue.AddRateLimited | pkg/controller/controller.go:142 | counts a failure and re-adds the key after the backoff of the previous count; the log records that backoff |
| WorkQueue.Queue.Forget | pkg/controller/controller.go:147 | drops the key's failure count and changes nothing else |
| WorkQueue.Queue.Fire | pkg/controller/controller.go:142 | a due timer is removed and its key added |
| WorkQueue.Queue.ShutDown | pkg/controller/controller.go:132-135 | marks the queue shutting down; nothing else changes |
| Operation.SetupContextFromClass | pkg/controller/operation.go:83-101 | the class's backend-type parameter selects a registered driver; it is an error exactly when the parameter is unset or names no registered driver |
| Operation.GetAccountName | pkg/controller/operation.go:103-105 | the account name is "account-" followed by the class uid |
| Operation.AccountNameIsUidOnly | pkg/controller/operation.go:103-105 | two classes share an account name exactly when they share a uid |
| Operation.GetCredentialsSecretName | pkg/controller/operation.go:107-112 | the secret name is the one recorded in the status, or "poc-credentials-" followed by the access name; it is never empty |
| Operation.SecretNameFallback | pkg/controller/operation.go:107-112 | a nil status and a status with an empty secret name give the same name |
| Operation.Provision | pkg/controller/operation.go:62-69 | the claim keeps its identity and spec; its status becomes provisioned under its uid, with the class's region, deletion policy and backend type |
| Operation.ProvisionIdempotent | pkg/controller/operation.go:62-69 | provisioning an already provisioned claim against the same class changes nothing |
| Operation.Grant | pkg/controller/operation.go:152-159 | the access keeps its identity and spec; its status becomes granted, with the secret name, the account id from the reply, the bucket id and the backend type |
| Operation.SecretNameStableAfterGrant | pkg/controller/operation.go:129-156 | after a grant, the secret-name choice finds the secret the grant used |
| Operation.CredentialsData | pkg/controller/operation.go:124-126 | the secret holds exactly the access key id and the secret access key of the reply |
| Operation.NeedsBackendDelete | pkg/controller/operation.go:25-35 | teardown calls the backend exactly for a provisioned claim whose policy is not Retain, including an unset policy or any other value |
| Operation.CreateBucketStep | pkg/controller/operation.go:51-77 | createBucket: one CreateBucket for the claim uid in the class region. A failure returns the backend error with nothing else changed. Otherwise the provisioned claim is recorded |
| Operation.RecordClaimStep | pkg/controller/operation.go:70-76 | after a failed Update the error is returned with nothing changed. After a successful Update the claim is replaced on the API server and put into the fallback store under its own key |
| Operation.DeleteBucketStep | pkg/controller/operation.go:23-49 | deleteBucket: the claim's key leaves the fallback store on every path; exactly when the claim needs a backend delete, one DeleteBucket with its recorded bucket id and region is issued; nothing else changes |
| Operation.SecretStep | pkg/controller/operation.go:128-149 | the credentials secret is created with the grant's data when absent and kept as it is when present; a Get error, or a Create error on an absent secret, is returned with nothing changed |
| Operation.RecordAccessStep | pkg/controller/operation.go:160-166 | after a failed Update the error is returned with nothing changed. After a successful Update the access is replaced on the API server and put into the fallback store under its own key |
| Operation.CreateAccessStep | pkg/controller/operation.go:114-167 | createAccess: one grant under the class account; a failed grant returns the backend error with nothing else changed; otherwise a secret error is returned before the status is touched, or the granted access is recorded |
| Operation.RevokeAccessStep | pkg/controller/operation.go:169-197 | revokeAccess: an access never granted only leaves the fallback store; otherwise the granted case applies |
| Operation.RevokeGrantedStep | pkg/controller/operation.go:177-195 | one RevokeBucket with the recorded bucket and account. A missing secret changes nothing else. A present secret either stays, with nothing else changed, or is deleted and the access leaves the fallback store |
| Operation.Consistent | pkg/controller/operation.go:199-205 | every fallback-store entry sits under its own key; a stored claim is provisioned under its uid and was created at the backend, and a stored access was granted at the backend |
| Operation.CreateAccessGrants | pkg/controller/operation.go:150-166 | a successful createAccess leaves the access granted for the bucket with the account the backend returned. The secret it names exists in the access's namespace, and the API server and the fallback store hold the granted access |
| Operation.CreateBucketKeepsConsistent | pkg/controller/operation.go:51-77 | createBucket keeps every fallback-store entry backed by a successful backend call; the claim it stores was created under its own uid |
| Operation.DeleteBucketKeepsConsistent | pkg/controller/operation.go:23-49 | deleteBucket keeps the same invariant |
| Operation.CreateAccessKeepsConsistent | pkg/controller/operation.go:114-167 | createAccess keeps the same invariant; the access it stores records the bucket and the account of a successful grant |
| Operation.RevokeAccessKeepsConsistent | pkg/controller/operation.go:169-197 | revokeAccess keeps the same invariant |
| Operation.TeardownDeletesOnce | pkg/controller/operation.go:37-46 | teardown of a provisioned claim whose policy is not Retain issues exactly one DeleteBucket, with the recorded bucket id and region, and no other call |
| Operation.TeardownDeletesCreatedBucket | pkg/controller/operation.go:23-49 | the bucket a teardown deletes is one the controller created, in the same region, and the claim leaves the fallback store |
| Controller.EnqueueKey | pkg/controller/controller.go:210-223 | a claim, or a deletion tombstone that wraps one, yields the claim's own key; anything else yields no key |
| Controller.EnqueuedKeyFindsClaim | pkg/controller/controller.go:210-223 | the key enqueued for a claim, wrapped or not, splits back into that claim's namespace and name |
| Controller.ReconcileClaimStep | pkg/controller/controller.go:160-180 | a claim without a class reference, a class List error and a class Get error each fail with nothing changed; otherwise createBucket runs on the API server's class, and the lister's copy carries the provisioned status once the bucket was created |
| Controller.ProcessBucketStep | pkg/controller/controller.go:151-207 | a malformed key succeeds with nothing changed; a lister error is returned with nothing changed; a live claim is reconciled; for a removed claim success is returned either with nothing changed or after deleteBucket on its stored copy |
| Controller.ProcessBucketKeepsConsistent | pkg/controller/controller.go:151-207 | a reconcile step keeps every fallback-store entry backed by a successful backend call |
| Controller.ReconcileRepeatsCreate | pkg/controller/controller.go:160-179 | every successful reconcile of a claim the lister has issues one more CreateBucket for its uid, even if the claim is already provisioned |
| Controller.ProcessBucketCalls | pkg/controller/controller.go:151-207 | a reconcile makes at most one backend call. A CreateBucket is made only for a claim the lister has, under its uid. A DeleteBucket is made only on the deletion path, for a claim from the fallback store, with success returned |
| Controller.ReconcileProvisions | pkg/controller/controller.go:160-179 | a successful reconcile leaves the API server's claim provisioned with its class's region, policy and backend type. The fallback store and the lister's cache hold the same claim |
| Controller.TeardownAfterRemoval | pkg/controller/controller.go:181-206 | once a provisioned claim not marked Retain is gone from the lister, a reconcile of its key does one of two things: with success, it issues exactly one DeleteBucket for its bucket and forgets the claim; otherwise it changes nothing |
| Controller.NoClassReferenceNoCall | pkg/controller/controller.go:163-176 | a claim without a class reference fails, and nothing changes and no backend call is made |
| Controller.Controller.constructor | pkg/controller/controller.go:84-109 | a new controller has synced claims, empty fallback stores, no backend calls and an empty queue with the given retry intervals |
| Controller.Controller.ListerGet | pkg/controller/controller.go:160 | the lister returns the cached claim, or not-found exactly when it has none, or some other error |
| Controller.Controller.ListClasses | pkg/controller/controller.go:164-167 | the class List either succeeds or fails; its result is not used |
| Controller.Controller.GetClass | pkg/controller/controller.go:170 | a class Get that succeeds returns the API server's class of that name |
| Controller.Controller.UpdateClaim | pkg/controller/operation.go:70 | an Update that succeeds replaces the API server's claim; a failed one changes nothing |
| Controller.Controller.UpdateAccess | pkg/controller/operation.go:160 | an Update that succeeds replaces the API server's access; a failed one changes nothing |
| Controller.Controller.StoreGetByKey | pkg/controller/controller.go:186 | the fallback-store lookup returns the stored claim, or not-found exactly when there is none, or an error |
| Controller.Controller.StoreBucketUpdate | pkg/controller/operation.go:199-201 | the claim is put into the fallback store under its own key |
| Controller.Controller.StoreAccessUpdate | pkg/controller/operation.go:203-205 | the access is put into the fallback store under its own key |
| Controller.Controller.StoreBucketDelete | pkg/controller/operation.go:27 | the claim's own key leaves the fallback store |
| Controller.Controller.StoreAccessDelete | pkg/controller/operation.go:173 | the access's own key leaves the fallback store |
| Controller.Controller.CallCreateBucket | pkg/controller/operation.go:52-55 | one CreateBucket call is logged with its reply |
| Controller.Controller.CallDeleteBucket | pkg/controller/operation.go:38-41 | one DeleteBucket call is logged with its reply |
| Controller.Controller.CallAccessBucket | pkg/controller/operation.go:115-118 | one grant call is logged with its reply: a failure, or an account and credentials |
| Controller.Controller.CallRevokeBucket | pkg/controller/operation.go:178-181 | one revoke call is logged with its reply |
| Controller.Controller.GetSecret | pkg/controller/operation.go:130 | the secret Get returns the secret's data, or not-found exactly when there is no such secret, or an error |
| Controller.Controller.CreateSecret | pkg/controller/operation.go:133-142 | a Create that succeeds adds a secret that did not exist; a failed one changes nothing |
| Controller.Controller.DeleteSecret | pkg/controller/operation.go:186-193 | the secret Delete reports not-found exactly when the secret is absent; only a successful delete removes it |
| Controller.Controller.DeleteBucket | pkg/controller/operation.go:23-49 | deleteBucket satisfies DeleteBucketStep: the claim always leaves the fallback store, and a DeleteBucket is issued only for a provisioned claim not marked Retain |
| Controller.Controller.RecordClaim | pkg/controller/operation.go:70-76 | the provisioned claim is stored locally only after the API server accepted the update |
| Controller.Controller.CreateBucket | pkg/controller/operation.go:51-77 | createBucket satisfies CreateBucketStep. The status is filled into the caller's claim once the bucket was created, even if the update then fails |
| Controller.Controller.SetupContext | pkg/controller/operation.go:83-101 | driver selection against the controller's registered drivers, both directions of the error case |
| Controller.Controller.EnsureSecret | pkg/controller/operation.go:128-149 | the credentials secret is created when absent, kept when present, and a Get or Create error changes nothing |
| Controller.Controller.RecordAccess | pkg/controller/operation.go:160-166 | the granted access is stored locally only after the API server accepted the update |
| Controller.Controller.CreateAccess | pkg/controller/operation.go:114-167 | createAccess satisfies CreateAccessStep: one grant; on success the secret is ensured, then the status is filled and recorded; each error is returned at its own site |
| Controller.Controller.RevokeGranted | pkg/controller/operation.go:177-195 | one revoke with the recorded bucket and account; the access leaves the fallback store only once its secret was deleted |
| Controller.Controller.RevokeAccess | pkg/controller/operation.go:169-197 | revokeAccess satisfies RevokeAccessStep; an access never granted only leaves the fallback store |
| Controller.Controller.ReconcileClaim | pkg/controller/controller.go:160-180 | reconciles a claim the lister has: a missing class reference, a List error and a Get error each fail before any backend call; otherwise createBucket runs |
| Controller.Controller.TeardownStored | pkg/controller/controller.go:185-206 | for a claim the lister no longer has, deleteBucket runs on the stored copy if there is one; otherwise nothing changes |
| Controller.Controller.ProcessBucket | pkg/controller/controller.go:151-207 | processBucket satisfies ProcessBucketStep: a malformed key is dropped with success, a lister error is returned, a live claim is reconciled, and a removed claim is torn down with success |
| Controller.Controller.Settle | pkg/controller/controller.go:136-148 | after an error the key is re-added rate limited, after success its failures are forgotten, and Done follows in both cases |
| Controller.Controller.BucketWorker | pkg/controller/controller.go:131-149 | the head key is reconciled and the queue ends in the worker-round state AfterWork; on quit nothing changes |
| Controller.Controller.EnqueueBucketWork | pkg/controller/controller.go:210-224 | the key of a claim or of a tombstone wrapping one is added to the queue once; any other notification changes nothing |

## Left out

- `New`, `Run`, the informer factory, the event recorder, leader election and the `main.go` bootstrap are not modelled. They are wiring and concurrency. The model's constructor starts from a synced informer.
- The concurrency of several workers is not modelled. The queue's held-key set is modelled, and a key held by one worker is never handed to another one (`WorkQueue.AddWhileProcessing`, `WorkQueue.TakenNotInFlight`).
- Informer propagation delay is not modelled. The lister's cache changes only where the controller mutates the object it got from it.
- Queue.Get and BucketWorker do not model Get's blocking wait on an empty queue that is still running. The model enters them only once Get would return: the queue is not empty, or it is shutting down.
- Timer clocks are not modelled. A timer has a delay. It falls due only when `Fire` is called, and timers for the same key are not merged.
- Logging, correlation contexts and the gRPC metadata that `setupContextFromClass` and `setupContextFromValue` attach are not modelled. The model returns the selected driver instead.
- The class List in `processBucket` is modelled only through its error. Its result is only logged.
- The key-func error branch of `enqueueBucketWork` (`pkg/controller/controller.go:217-220`) is not modelled, because the key of a claim object cannot fail.
- The failed type assertion in `processBucket` (`pkg/controller/controller.go:197-200`) is not modelled, because the fallback store holds only claims.
- Controller.Controller.StoreBucketUpdate, Controller.Controller.StoreAccessUpdate: both are modelled as a put by key. The resource-version comparison and the store error of `utils.StoreObjectUpdate` are not modelled; `pkg/utils` is not part of this model.
- Controller.Controller.RecordClaim, Controller.Controller.RecordAccess: the object stored is the one sent to the API server, not the one it returns, which differs only in server-set metadata.
- No caller of `createAccess` or `revokeAccess` is part of this core. They are modelled as operations with their own contracts.
- WorkQueue.Delay, WorkQueue.Queue.constructor, Controller.Controller.constructor: the retry intervals are unbounded `nat`s, not Go's signed 64-bit nanosecond `time.Duration`, and the backoff is computed exactly rather than in float64 with a cut-off at the largest `Duration`. Past the cut-off both give the maximum, so the two agree for every non-negative interval that fits a `Duration`, apart from float64 rounding of very large products. Also, `cmd/px-object-controller/main.go:157-159` passes no interval, so both start at zero.
- Generated clientsets, listers and informers, the CRD type definitions beyond the fields used, the tests and the sample app are not part of this model.
