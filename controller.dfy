/** The bucket controller: the reconcile step for one claim key, the worker
    that turns its result into a queue action, the watch handler that turns a
    notification into a key, and the provisioning, teardown and access
    operations it runs. The external collaborators (lister, API server,
    backend, secrets) are methods whose bodies choose success or failure
    arbitrarily; every reconcile step is proved against a relation over the
    state before and after it. */
module Controller {
  import opened Records
  import opened Keys
  import opened WorkQueue
  import opened Operation

  /** The answer of a lookup that may fail for a reason other than absence. */
  datatype Lookup<T> = Found(obj: T) | NotFound | LookupError

  datatype SecretDeletion = Deleted | SecretNotFound | DeleteFailed

  /** What a watch notification carries: a claim, some other object, or the
      "deleted, final state unknown" wrapper around the last known object. */
  datatype WatchObject =
    | ClaimObject(claim: Claim)
    | OtherObject
    | Tombstone(key: string, obj: Option<WatchObject>)

  /** The key enqueueBucketWork adds for a notification: a wrapper with an
      object is unwrapped once, and only a claim yields a key, computed from
      the claim itself. */
  function EnqueueKey(obj: WatchObject): (r: Option<string>)
    ensures obj.ClaimObject? ==> r == Some(ObjectKey(obj.claim.Ref()))
    ensures obj.OtherObject? ==> r == None
    ensures obj.Tombstone? && obj.obj.Some? && obj.obj.value.ClaimObject? ==> r == Some(ObjectKey(obj.obj.value.claim.Ref()))
    ensures obj.Tombstone? && (obj.obj.None? || !obj.obj.value.ClaimObject?) ==> r == None
  {
    var o := if obj.Tombstone? && obj.obj.Some? then obj.obj.value else obj;
    if o.ClaimObject? then Some(ObjectKey(o.claim.Ref())) else None
  }

  /** The key enqueued for a claim (Kubernetes names hold no '/') is split
      back by the reconcile step into that claim's namespace and name, so the
      worker looks up exactly the claim that was notified, wrapped or not;
      the key a tombstone carries plays no part. */
  lemma EnqueuedKeyFindsClaim(obj: WatchObject, c: Claim)
    requires obj == ClaimObject(c) || (obj.Tombstone? && obj.obj == Some(ClaimObject(c)))
    requires '/' !in c.namespace && '/' !in c.name
    ensures EnqueueKey(obj).Some? && SplitKey(EnqueueKey(obj).value) == Some(c.Ref())
  {
    SplitObjectKey(c.Ref());
  }

  /** processBucket for a claim the lister returned: a claim without a class
      reference fails; a failed class List or Get fails before any backend
      call; otherwise createBucket runs, and the lister's copy of the claim
      carries the status createBucket filled in place once the bucket was
      created, whether or not the update then succeeded. */
  ghost predicate ReconcileClaimStep(s: State, ref: ObjectRef, s': State, r: Outcome)
    requires ref in s.claimCache
  {
    var c := s.claimCache[ref];
    match c.spec.bucketClassName
    case None => s' == s && r == Fail(NoClassReference)
    case Some(cn) =>
      || (s' == s && r == Fail(ClassListError))
      || (s' == s && r == Fail(ClassGetError))
      || (cn in s.classes
          && CreateBucketStep(s, c, s.classes[cn], s'.(claimCache := s.claimCache), r)
          && s'.claimCache == s.claimCache[ref := if r == Fail(BackendError) then c else Provision(c, s.classes[cn])])
  }

  /** processBucket: a malformed key is dropped with success and no effect;
      a lister error other than not-found is returned before the fallback
      store is consulted; a claim the lister has is reconciled; a claim it
      does not have is torn down from the fallback store if the store has it
      (success whatever the teardown does), and is otherwise already gone. */
  ghost predicate ProcessBucketStep(s: State, key: string, s': State, r: Outcome) {
    match SplitKey(key)
    case None => s' == s && r == Pass
    case Some(ref) =>
      || (s' == s && r == Fail(ListerError))
      || (ref in s.claimCache && ReconcileClaimStep(s, ref, s', r))
      || (ref !in s.claimCache && r == Pass &&
          (s' == s || (key in s.bucketStore && DeleteBucketStep(s, s.bucketStore[key], s'))))
  }

  /** A reconcile step keeps every fallback store entry justified by a
      backend call. */
  lemma ProcessBucketKeepsConsistent(s: State, key: string, s': State, r: Outcome)
    requires Consistent(s) && ProcessBucketStep(s, key, s', r)
    ensures Consistent(s')
  {
    match SplitKey(key)
    case None =>
    case Some(ref) =>
      if s' == s {
      } else if ref in s.claimCache {
        var c := s.claimCache[ref];
        var cls := s.classes[c.spec.bucketClassName.value];
        CreateBucketKeepsConsistent(s, c, cls, s'.(claimCache := s.claimCache), r);
        assert s' == s'.(claimCache := s.claimCache).(claimCache := s'.claimCache);
      } else {
        DeleteBucketKeepsConsistent(s, s.bucketStore[key], s');
      }
  }

  /** The reconcile step does not look at the provisioned flag: every
      successful reconcile of a claim the lister has issues CreateBucket again,
      even for a claim already provisioned. */
  lemma ReconcileRepeatsCreate(s: State, key: string, s': State, ref: ObjectRef)
    requires ProcessBucketStep(s, key, s', Pass) && SplitKey(key) == Some(ref) && ref in s.claimCache
    ensures var c := s.claimCache[ref];
            c.spec.bucketClassName.Some? && c.spec.bucketClassName.value in s.classes
            && Count(s'.calls, CreateBucketReq(c.uid, s.classes[c.spec.bucketClassName.value].region))
               == Count(s.calls, CreateBucketReq(c.uid, s.classes[c.spec.bucketClassName.value].region)) + 1
  {
    var c := s.claimCache[ref];
    var cls := s.classes[c.spec.bucketClassName.value];
    CountCalledOnce(s.calls, s'.calls, CreateBucketReq(c.uid, cls.region), CreateBucketReq(c.uid, cls.region));
  }

  /** A reconcile step makes at most one backend call: a CreateBucket only
      for a claim the lister has, under its uid, and a DeleteBucket only on
      the deletion path, for a claim taken from the fallback store. */
  lemma ProcessBucketCalls(s: State, key: string, s': State, r: Outcome)
    requires ProcessBucketStep(s, key, s', r)
    ensures s'.calls == s.calls || (|s'.calls| == |s.calls| + 1 && s'.calls[..|s.calls|] == s.calls)
    ensures |s'.calls| > |s.calls| && s'.calls[|s.calls|].req.CreateBucketReq? ==>
              exists ref :: SplitKey(key) == Some(ref) && ref in s.claimCache
                             && s'.calls[|s.calls|].req.name == s.claimCache[ref].uid
    ensures |s'.calls| > |s.calls| && s'.calls[|s.calls|].req.DeleteBucketReq? ==>
              r == Pass && key in s.bucketStore && SplitKey(key).Some? && SplitKey(key).value !in s.claimCache
  {
    if |s'.calls| > |s.calls| {
      var ref := SplitKey(key).value;
      if ref in s.claimCache {
        assert s'.calls[|s.calls|].req.CreateBucketReq?;
      }
    }
  }

  /** A successful reconcile of a claim the lister has, keyed by its own key,
      leaves the API server's claim provisioned under its uid with the region,
      policy and backend type of its class, and the fallback store holding
      the same claim under the same key. */
  lemma ReconcileProvisions(s: State, c: Claim, s': State)
    requires '/' !in c.namespace && '/' !in c.name
    requires c.Ref() in s.claimCache && s.claimCache[c.Ref()] == c
    requires ProcessBucketStep(s, ObjectKey(c.Ref()), s', Pass)
    ensures c.spec.bucketClassName.Some? && c.spec.bucketClassName.value in s.classes
    ensures c.Ref() in s'.claims && s'.claims[c.Ref()].status.Some?
    ensures var cls := s.classes[c.spec.bucketClassName.value];
            var st := s'.claims[c.Ref()].status.value;
            st.provisioned && st.bucketId == c.uid && st.region == cls.region
            && st.deletionPolicy == cls.deletionPolicy && st.backendType == Param(cls.parameters, BackendTypeKey)
    ensures ObjectKey(c.Ref()) in s'.bucketStore && s'.bucketStore[ObjectKey(c.Ref())] == s'.claims[c.Ref()]
    ensures s'.claimCache[c.Ref()] == s'.claims[c.Ref()]
  {
    SplitObjectKey(c.Ref());
  }

  /** Once a provisioned claim not marked Retain is gone from the lister, a
      reconcile of its key either changes nothing (the fallback store could not
      be read) or issues exactly one DeleteBucket, for its bucket id and region,
      and forgets the claim. */
  lemma TeardownAfterRemoval(s: State, c: Claim, s': State, r: Outcome, q: Request)
    requires '/' !in c.namespace && '/' !in c.name
    requires c.Ref() !in s.claimCache && ObjectKey(c.Ref()) in s.bucketStore && s.bucketStore[ObjectKey(c.Ref())] == c
    requires NeedsBackendDelete(c)
    requires ProcessBucketStep(s, ObjectKey(c.Ref()), s', r)
    ensures s' == s || (r == Pass && ObjectKey(c.Ref()) !in s'.bucketStore &&
                        Count(s'.calls, q) == Count(s.calls, q) +
                        (if q == DeleteBucketReq(c.status.value.bucketId, c.status.value.region) then 1 else 0))
  {
    SplitObjectKey(c.Ref());
    if s' != s && r == Pass {
      TeardownDeletesOnce(s, c, s', q);
    }
  }

  /** A claim without a class reference is refused and never
      reaches the backend. */
  lemma NoClassReferenceNoCall(s: State, key: string, ref: ObjectRef, s': State, r: Outcome)
    requires SplitKey(key) == Some(ref) && ref in s.claimCache
    requires s.claimCache[ref].spec.bucketClassName.None?
    requires ProcessBucketStep(s, key, s', r)
    ensures r.Fail? && s' == s
  {
  }

  /** The controller: its view of the cluster, its fallback stores, the
      backend call log, the registered drivers and the work queue. */
  class Controller {
    var claimCache: map<ObjectRef, Claim>
    var claims: map<ObjectRef, Claim>
    var classes: map<string, BucketClass>
    var accesses: map<ObjectRef, Access>
    var bucketStore: map<string, Claim>
    var accessStore: map<string, Access>
    var secrets: map<ObjectRef, map<string, string>>
    ghost var calls: seq<BackendCall>
    const drivers: set<string>
    const queue: Queue

    ghost function Snapshot(): State
      reads this
    {
      State(claimCache, claims, classes, accesses, bucketStore, accessStore, secrets, calls)
    }

    ghost predicate Valid()
      reads this
    {
      Consistent(Snapshot())
    }

    /** A controller whose informer has synced the given claims, with empty
        fallback stores and a queue retrying from `retryStart` up to `retryMax`. */
    constructor (drivers: set<string>, retryStart: nat, retryMax: nat,
                 claims: map<ObjectRef, Claim>, classes: map<string, BucketClass>,
                 accesses: map<ObjectRef, Access>, secrets: map<ObjectRef, map<string, string>>)
      ensures Valid() && queue.Valid() && fresh(queue)
      ensures Snapshot() == State(claims, claims, classes, accesses, map[], map[], secrets, [])
      ensures this.drivers == drivers && queue.baseDelay == retryStart && queue.maxDelay == retryMax
      ensures queue.Abs() == Empty && queue.log == []
    {
      this.claimCache, this.claims, this.classes, this.accesses := claims, claims, classes, accesses;
      this.bucketStore, this.accessStore, this.secrets, this.calls := map[], map[], secrets, [];
      this.drivers := drivers;
      this.queue := new Queue(retryStart, retryMax);
    }

    // -------------------------------------------------------------------
    // External collaborators. Each may fail for reasons the model does not
    // see; the failure is chosen arbitrarily.

    /** bucketLister.PXBucketClaims(namespace).Get(name) */
    method ListerGet(ref: ObjectRef) returns (r: Lookup<Claim>)
      ensures r.Found? ==> ref in claimCache && r.obj == claimCache[ref]
      ensures r.NotFound? ==> ref !in claimCache
    {
      var fail: bool := *;
      if fail { r := LookupError; }
      else if ref in claimCache { r := Found(claimCache[ref]); }
      else { r := NotFound; }
    }

    /** PXBucketClasses().List; only its error matters. */
    method ListClasses() returns (ok: bool)
    {
      ok := *;
    }

    /** PXBucketClasses().Get(name); a missing class is an error. */
    method GetClass(name: string) returns (r: Option<BucketClass>)
      ensures r.Some? ==> name in classes && r.value == classes[name]
    {
      var fail: bool := *;
      r := if !fail && name in classes then Some(classes[name]) else None;
    }

    /** PXBucketClaims(namespace).Update: fails for a claim the API server no
        longer has, and may fail otherwise (a conflict). */
    method UpdateClaim(c: Claim) returns (ok: bool)
      modifies this`claims
      ensures ok ==> c.Ref() in old(claims)
      ensures Snapshot() == if ok then old(Snapshot()).(claims := old(claims)[c.Ref() := c]) else old(Snapshot())
    {
      var fail: bool := *;
      ok := !fail && c.Ref() in claims;
      if ok { claims := claims[c.Ref() := c]; }
    }

    method UpdateAccess(a: Access) returns (ok: bool)
      modifies this`accesses
      ensures ok ==> a.Ref() in old(accesses)
      ensures Snapshot() == if ok then old(Snapshot()).(accesses := old(accesses)[a.Ref() := a]) else old(Snapshot())
    {
      var fail: bool := *;
      ok := !fail && a.Ref() in accesses;
      if ok { accesses := accesses[a.Ref() := a]; }
    }

    /** bucketStore.GetByKey */
    method StoreGetByKey(key: string) returns (r: Lookup<Claim>)
      ensures r.Found? ==> key in bucketStore && r.obj == bucketStore[key]
      ensures r.NotFound? ==> key !in bucketStore
    {
      var fail: bool := *;
      if fail { r := LookupError; }
      else if key in bucketStore { r := Found(bucketStore[key]); }
      else { r := NotFound; }
    }

    /** storeBucketUpdate: a put under the claim's own key. */
    method StoreBucketUpdate(c: Claim)
      modifies this`bucketStore
      ensures Snapshot() == old(Snapshot()).(bucketStore := old(bucketStore)[ObjectKey(c.Ref()) := c])
    {
      bucketStore := bucketStore[ObjectKey(c.Ref()) := c];
    }

    /** storeAccessUpdate: a put under the access's own key. */
    method StoreAccessUpdate(a: Access)
      modifies this`accessStore
      ensures Snapshot() == old(Snapshot()).(accessStore := old(accessStore)[ObjectKey(a.Ref()) := a])
    {
      accessStore := accessStore[ObjectKey(a.Ref()) := a];
    }

    /** bucketStore.Delete: removes the claim's own key. */
    method StoreBucketDelete(c: Claim)
      modifies this`bucketStore
      ensures Snapshot() == old(Snapshot()).(bucketStore := old(bucketStore) - {ObjectKey(c.Ref())})
    {
      bucketStore := bucketStore - {ObjectKey(c.Ref())};
    }

    /** accessStore.Delete: removes the access's own key. */
    method StoreAccessDelete(a: Access)
      modifies this`accessStore
      ensures Snapshot() == old(Snapshot()).(accessStore := old(accessStore) - {ObjectKey(a.Ref())})
    {
      accessStore := accessStore - {ObjectKey(a.Ref())};
    }

    method CallCreateBucket(name: string, region: string) returns (ok: bool)
      modifies this`calls
      ensures Snapshot() == old(Snapshot()).(calls := old(calls) + [BackendCall(CreateBucketReq(name, region), if ok then Succeeded else Failed)])
    {
      ok := *;
      calls := calls + [BackendCall(CreateBucketReq(name, region), if ok then Succeeded else Failed)];
    }

    method CallDeleteBucket(bucketId: string, region: string) returns (ok: bool)
      modifies this`calls
      ensures Snapshot() == old(Snapshot()).(calls := old(calls) + [BackendCall(DeleteBucketReq(bucketId, region), if ok then Succeeded else Failed)])
    {
      ok := *;
      calls := calls + [BackendCall(DeleteBucketReq(bucketId, region), if ok then Succeeded else Failed)];
    }

    method CallAccessBucket(bucketId: string, accountName: string) returns (reply: Reply)
      modifies this`calls
      ensures reply.Failed? || reply.Granted?
      ensures Snapshot() == old(Snapshot()).(calls := old(calls) + [BackendCall(GrantAccessReq(bucketId, accountName), reply)])
    {
      var ok: bool := *;
      var accountId: string, accessKeyId: string, secretAccessKey: string := *, *, *;
      reply := if ok then Granted(accountId, accessKeyId, secretAccessKey) else Failed;
      calls := calls + [BackendCall(GrantAccessReq(bucketId, accountName), reply)];
    }

    method CallRevokeBucket(bucketId: string, accountId: string) returns (ok: bool)
      modifies this`calls
      ensures Snapshot() == old(Snapshot()).(calls := old(calls) + [BackendCall(RevokeAccessReq(bucketId, accountId), if ok then Succeeded else Failed)])
    {
      ok := *;
      calls := calls + [BackendCall(RevokeAccessReq(bucketId, accountId), if ok then Succeeded else Failed)];
    }

    method GetSecret(ref: ObjectRef) returns (r: Lookup<map<string, string>>)
      ensures r.Found? ==> ref in secrets && r.obj == secrets[ref]
      ensures r.NotFound? ==> ref !in secrets
    {
      var fail: bool := *;
      if fail { r := LookupError; }
      else if ref in secrets { r := Found(secrets[ref]); }
      else { r := NotFound; }
    }

    method CreateSecret(ref: ObjectRef, data: map<string, string>) returns (ok: bool)
      modifies this`secrets
      ensures ok ==> ref !in old(secrets)
      ensures Snapshot() == if ok then old(Snapshot()).(secrets := old(secrets)[ref := data]) else old(Snapshot())
    {
      var fail: bool := *;
      ok := !fail && ref !in secrets;
      if ok { secrets := secrets[ref := data]; }
    }

    method DeleteSecret(ref: ObjectRef) returns (r: SecretDeletion)
      modifies this`secrets
      ensures r == SecretNotFound <==> ref !in old(secrets)
      ensures Snapshot() == if r == Deleted then old(Snapshot()).(secrets := old(secrets) - {ref}) else old(Snapshot())
    {
      var fail: bool := *;
      if ref !in secrets { r := SecretNotFound; }
      else if fail { r := DeleteFailed; }
      else { r := Deleted; secrets := secrets - {ref}; }
    }

    // -------------------------------------------------------------------
    // operation.go

    /** deleteBucket */
    method DeleteBucket(pbc: Claim)
      requires Valid()
      modifies this
      ensures Valid() && DeleteBucketStep(old(Snapshot()), pbc, Snapshot())
    {
      ghost var s := Snapshot();
      if pbc.status.None? || !pbc.status.value.provisioned {
        StoreBucketDelete(pbc);
      } else if pbc.status.value.deletionPolicy == Retain {
        StoreBucketDelete(pbc);
      } else {
        var _ := CallDeleteBucket(pbc.status.value.bucketId, pbc.status.value.region);
        StoreBucketDelete(pbc);
      }
      DeleteBucketKeepsConsistent(s, pbc, Snapshot());
    }

    /** The update and the store put at the end of createBucket. */
    method RecordClaim(c: Claim) returns (r: Outcome)
      modifies this`claims, this`bucketStore
      ensures RecordClaimStep(old(Snapshot()), c, Snapshot(), r)
    {
      var updated := UpdateClaim(c);
      if updated {
        StoreBucketUpdate(c);
        r := Pass;
      } else {
        r := Fail(UpdateError);
      }
    }

    /** createBucket; `pbc'` is the caller's claim afterwards, whose status
        createBucket fills in place once the bucket was created. */
    method CreateBucket(pbc: Claim, cls: BucketClass) returns (r: Outcome, pbc': Claim)
      requires Valid()
      modifies this
      ensures Valid() && CreateBucketStep(old(Snapshot()), pbc, cls, Snapshot(), r)
      ensures pbc' == if r == Fail(BackendError) then pbc else Provision(pbc, cls)
    {
      ghost var s := Snapshot();
      var ok := CallCreateBucket(pbc.uid, cls.region);
      if !ok {
        r, pbc' := Fail(BackendError), pbc;
      } else {
        pbc' := Provision(pbc, cls);
        r := RecordClaim(pbc');
      }
      CreateBucketKeepsConsistent(s, pbc, cls, Snapshot(), r);
    }

    /** setupContextFromClass, against the registered drivers. */
    method SetupContext(cls: BucketClass) returns (r: DriverSelection)
      ensures r.Selected? <==> BackendTypeKey in cls.parameters && cls.parameters[BackendTypeKey] in drivers
      ensures r.Selected? ==> r.driver == cls.parameters[BackendTypeKey]
    {
      r := SetupContextFromClass(drivers, cls);
    }

    /** The secret lookup and creation inside createAccess. */
    method EnsureSecret(sref: ObjectRef, data: map<string, string>) returns (r: Outcome)
      modifies this`secrets
      ensures SecretStep(old(Snapshot()), sref, data, Snapshot(), r)
    {
      var got := GetSecret(sref);
      if got.NotFound? {
        var created := CreateSecret(sref, data);
        r := if created then Pass else Fail(SecretCreateError);
      } else {
        r := if got.Found? then Pass else Fail(SecretGetError);
      }
    }

    /** The update and the store put at the end of createAccess. */
    method RecordAccess(a: Access) returns (r: Outcome)
      modifies this`accesses, this`accessStore
      ensures RecordAccessStep(old(Snapshot()), a, Snapshot(), r)
    {
      var updated := UpdateAccess(a);
      if updated {
        StoreAccessUpdate(a);
        r := Pass;
      } else {
        r := Fail(UpdateError);
      }
    }

    /** createAccess; `pba'` is the caller's access afterwards. */
    method CreateAccess(pba: Access, cls: BucketClass, bucketId: string) returns (r: Outcome, pba': Access)
      requires Valid()
      modifies this
      ensures Valid() && CreateAccessStep(old(Snapshot()), pba, cls, bucketId, Snapshot(), r, pba')
    {
      ghost var s := Snapshot();
      var reply := CallAccessBucket(bucketId, GetAccountName(cls));
      r, pba' := Fail(BackendError), pba;
      if reply.Granted? {
        var name := GetCredentialsSecretName(pba);
        r := EnsureSecret(Ref(pba.namespace, name), CredentialsData(reply));
        if r == Pass {
          pba' := Grant(pba, cls, bucketId, name, reply.accountId);
          r := RecordAccess(pba');
        }
      }
      CreateAccessKeepsConsistent(s, pba, cls, bucketId, Snapshot(), r, pba');
    }

    /** revokeAccess for a granted access: the revoke's failure is only
        logged; the access leaves the fallback store only once its secret
        was deleted. */
    method RevokeGranted(pba: Access)
      requires Valid() && pba.status.Some? && pba.status.value.accessGranted
      modifies this
      ensures Valid() && RevokeGrantedStep(old(Snapshot()), pba, Snapshot())
    {
      ghost var s := Snapshot();
      var st := pba.status.value;
      var _ := CallRevokeBucket(st.bucketId, st.accountId);
      var deleted := DeleteSecret(Ref(pba.namespace, st.credentialsSecretName));
      if deleted == Deleted {
        StoreAccessDelete(pba);
      }
      RevokeAccessKeepsConsistent(s, pba, Snapshot());
    }

    /** revokeAccess */
    method RevokeAccess(pba: Access)
      requires Valid()
      modifies this
      ensures Valid() && RevokeAccessStep(old(Snapshot()), pba, Snapshot())
    {
      if pba.status.None? || !pba.status.value.accessGranted {
        StoreAccessDelete(pba);
      } else {
        RevokeGranted(pba);
      }
    }

    // -------------------------------------------------------------------
    // controller.go

    /** processBucket, for a claim the lister returned. */
    method ReconcileClaim(ref: ObjectRef, c: Claim) returns (r: Outcome)
      requires Valid() && ref in claimCache && claimCache[ref] == c
      modifies this
      ensures Valid() && ReconcileClaimStep(old(Snapshot()), ref, Snapshot(), r)
    {
      if c.spec.bucketClassName.None? {
        return Fail(NoClassReference);
      }
      var listed := ListClasses();
      if !listed {
        return Fail(ClassListError);
      }
      var cls := GetClass(c.spec.bucketClassName.value);
      if cls.None? {
        return Fail(ClassGetError);
      }
      var c';
      r, c' := CreateBucket(c, cls.value);
      claimCache := claimCache[ref := c'];
    }

    /** processBucket, for a claim the lister no longer has. */
    method TeardownStored(key: string)
      requires Valid()
      modifies this
      ensures Valid()
      ensures Snapshot() == old(Snapshot()) ||
              (key in old(bucketStore) && DeleteBucketStep(old(Snapshot()), old(bucketStore[key]), Snapshot()))
    {
      var stored := StoreGetByKey(key);
      if stored.Found? {
        DeleteBucket(stored.obj);
      }
    }

    /** processBucket */
    method ProcessBucket(key: string) returns (r: Outcome)
      requires Valid()
      modifies this
      ensures Valid() && ProcessBucketStep(old(Snapshot()), key, Snapshot(), r)
    {
      var parts := SplitKey(key);
      if parts.None? {
        return Pass;
      }
      var got := ListerGet(parts.value);
      if got.Found? {
        r := ReconcileClaim(parts.value, got.obj);
      } else if got.LookupError? {
        r := Fail(ListerError);
      } else {
        TeardownStored(key);
        r := Pass;
      }
    }

    /** bucketWorker: one key from the queue is reconciled; an error re-adds
        it rate limited, success forgets its failures, and Done follows on
        every path after a key was handed out. `key` and `r` report the key
        handled and the reconcile result. */
    method BucketWorker() returns (key: Option<string>, r: Outcome)
      requires Valid() && queue.Valid() && (|queue.queue| > 0 || queue.shuttingDown)
      modifies this, queue
      ensures Valid() && queue.Valid()
      ensures key.None? ==> old(|queue.queue|) == 0 && Snapshot() == old(Snapshot())
                            && queue.Abs() == old(queue.Abs()) && queue.log == old(queue.log) + [OpQuit]
      ensures key.Some? ==> old(|queue.queue|) > 0
      ensures key.Some? ==>
                var k := key.value;
                && k == old(queue.queue[0])
                && ProcessBucketStep(old(Snapshot()), k, Snapshot(), r)
                && queue.Abs() == AfterWork(old(queue.Abs()), queue.baseDelay, queue.maxDelay, r == Pass)
                && (r == Pass ==> queue.log == old(queue.log) + [OpGet(k), OpForget(k), OpDone(k)])
                && (r.Fail? ==> queue.log == old(queue.log) + [OpGet(k), OpAddRateLimited(k, Delay(queue.baseDelay, queue.maxDelay, Failures(old(queue.Abs()), k))), OpDone(k)])
    {
      key := queue.Get();
      if key.None? {
        r := Pass;
        return;
      }
      r := ProcessBucket(key.value);
      Settle(key.value, r);
    }

    /** The end of bucketWorker: the queue action for the reconcile result,
        then the deferred Done. */
    method Settle(k: string, r: Outcome)
      requires queue.Valid() && k in queue.processing
      modifies queue
      ensures queue.Valid()
      ensures queue.Abs() == Finished(if r == Pass then Forgotten(old(queue.Abs()), k)
                                      else RateLimited(old(queue.Abs()), queue.baseDelay, queue.maxDelay, k), k)
      ensures r == Pass ==> queue.log == old(queue.log) + [OpForget(k), OpDone(k)]
      ensures r.Fail? ==> queue.log == old(queue.log) + [OpAddRateLimited(k, Delay(queue.baseDelay, queue.maxDelay, Failures(old(queue.Abs()), k))), OpDone(k)]
    {
      if r.Fail? {
        queue.AddRateLimited(k);
      } else {
        queue.Forget(k);
      }
      queue.Done(k);
    }

    /** enqueueBucketWork */
    method EnqueueBucketWork(obj: WatchObject)
      requires Valid() && queue.Valid()
      modifies queue
      ensures Valid() && queue.Valid()
      ensures EnqueueKey(obj).Some? ==> queue.Abs() == Added(old(queue.Abs()), EnqueueKey(obj).value)
                                        && queue.log == old(queue.log) + [OpAdd(EnqueueKey(obj).value)]
      ensures EnqueueKey(obj).None? ==> queue.Abs() == old(queue.Abs()) && queue.log == old(queue.log)
    {
      var o := obj;
      if o.Tombstone? && o.obj.Some? {
        o := o.obj.value;
      }
      if o.ClaimObject? {
        queue.Add(ObjectKey(o.claim.Ref()));
      }
    }
  }
}
