/** The provisioning, teardown and access operations of the controller: the
    pure helpers (driver selection, deterministic names, the status a
    successful call records), and for each state-changing operation the
    relation between the state before and after it. The operations themselves
    are methods of Controller.Controller, proved against these relations. */
module Operation {
  import opened Records
  import opened Keys

  const BackendTypeKey := "object.portworx.io/backend-type"
  const AccountPrefix := "account-"
  const SecretPrefix := "poc-credentials-"

  /** The driver chosen for a class, or why none is. */
  datatype DriverSelection = Selected(driver: string) | ParameterUnset | UnknownDriver

  /** setupContextFromClass: the backend-type parameter of the class selects a
      registered driver. */
  function SetupContextFromClass(drivers: set<string>, cls: BucketClass): (r: DriverSelection)
    ensures r == ParameterUnset <==> BackendTypeKey !in cls.parameters
    ensures r == UnknownDriver <==> BackendTypeKey in cls.parameters && cls.parameters[BackendTypeKey] !in drivers
    ensures r.Selected? ==> r.driver in drivers && r.driver == cls.parameters[BackendTypeKey]
  {
    if BackendTypeKey !in cls.parameters then ParameterUnset
    else if cls.parameters[BackendTypeKey] !in drivers then UnknownDriver
    else Selected(cls.parameters[BackendTypeKey])
  }

  /** getAccountName: the backend account used for every grant under a class. */
  function GetAccountName(cls: BucketClass): (r: string)
    ensures |r| == |AccountPrefix| + |cls.uid| && r[..|AccountPrefix|] == AccountPrefix
    ensures r[|AccountPrefix|..] == cls.uid
  {
    AccountPrefix + cls.uid
  }

  /** Two classes share a backend account exactly when they have the same uid. */
  lemma AccountNameIsUidOnly(c1: BucketClass, c2: BucketClass)
    ensures GetAccountName(c1) == GetAccountName(c2) <==> c1.uid == c2.uid
  {
    if GetAccountName(c1) == GetAccountName(c2) {
      assert c1.uid == GetAccountName(c1)[|AccountPrefix|..];
    }
  }

  /** getCredentialsSecretName: the secret name recorded in the status, or
      one derived from the access name. */
  function GetCredentialsSecretName(a: Access): (r: string)
    ensures r != ""
    ensures a.status.Some? && a.status.value.credentialsSecretName != "" ==> r == a.status.value.credentialsSecretName
    ensures (a.status.None? || a.status.value.credentialsSecretName == "") ==> r == SecretPrefix + a.name
  {
    if a.status.Some? && a.status.value.credentialsSecretName != "" then a.status.value.credentialsSecretName
    else SecretPrefix + a.name
  }

  /** The name does not depend on an unset status: a nil status and an empty
      recorded name give the same name. */
  lemma SecretNameFallback(a: Access, st: AccessStatus)
    requires st.credentialsSecretName == ""
    ensures GetCredentialsSecretName(a.(status := Some(st))) == GetCredentialsSecretName(a.(status := None))
  {
  }

  /** The status createBucket fills in after a successful CreateBucket: the claim with its status filled in from the
      class. The endpoint is not recorded. */
  function Provision(pbc: Claim, cls: BucketClass): (r: Claim)
    ensures r.Ref() == pbc.Ref() && r.uid == pbc.uid && r.spec == pbc.spec
    ensures r.status.Some? && r.status.value.provisioned
    ensures r.status.value.bucketId == pbc.uid && r.status.value.region == cls.region
    ensures r.status.value.deletionPolicy == cls.deletionPolicy
    ensures r.status.value.backendType == Param(cls.parameters, BackendTypeKey)
    ensures r.status.value.endpoint == pbc.status.GetOr(EmptyClaimStatus).endpoint
  {
    var st := pbc.status.GetOr(EmptyClaimStatus);
    pbc.(status := Some(st.(provisioned := true, region := cls.region, deletionPolicy := cls.deletionPolicy,
                            bucketId := pbc.uid, backendType := Param(cls.parameters, BackendTypeKey))))
  }

  /** Provisioning an already provisioned claim against the same class leaves
      it as it is. */
  lemma ProvisionIdempotent(pbc: Claim, cls: BucketClass)
    ensures Provision(Provision(pbc, cls), cls) == Provision(pbc, cls)
  {
  }

  /** The status createAccess fills in after the credentials secret exists:
      the access with its status filled in. */
  function Grant(pba: Access, cls: BucketClass, bucketId: string, secretName: string, accountId: string): (r: Access)
    ensures r.Ref() == pba.Ref() && r.spec == pba.spec
    ensures r.status.Some? && r.status.value.accessGranted
    ensures r.status.value.credentialsSecretName == secretName && r.status.value.accountId == accountId
    ensures r.status.value.bucketId == bucketId && r.status.value.backendType == Param(cls.parameters, BackendTypeKey)
  {
    var st := pba.status.GetOr(EmptyAccessStatus);
    pba.(status := Some(st.(accessGranted := true, credentialsSecretName := secretName, accountId := accountId,
                            bucketId := bucketId, backendType := Param(cls.parameters, BackendTypeKey))))
  }

  /** Once a grant has recorded the secret name, the name is stable: the next
      grant looks up the same secret. */
  lemma SecretNameStableAfterGrant(pba: Access, cls: BucketClass, bucketId: string, accountId: string)
    ensures var name := GetCredentialsSecretName(pba);
            GetCredentialsSecretName(Grant(pba, cls, bucketId, name, accountId)) == name
  {
  }

  /** The data of the credentials secret created from a grant's reply. */
  function CredentialsData(reply: Reply): (d: map<string, string>)
    requires reply.Granted?
    ensures d.Keys == {"accessKeyID", "secretAccessKey"}
    ensures d["accessKeyID"] == reply.accessKeyId && d["secretAccessKey"] == reply.secretAccessKey
  {
    map["accessKeyID" := reply.accessKeyId, "secretAccessKey" := reply.secretAccessKey]
  }

  /** `after` is `before` with one more call, whose request is `req`. */
  ghost predicate CalledOnce(before: seq<BackendCall>, after: seq<BackendCall>, req: Request) {
    |after| == |before| + 1 && after[..|before|] == before && after[|before|].req == req
  }

  /** The number of calls in `calls` that sent `req`. */
  function Count(calls: seq<BackendCall>, req: Request): nat {
    if calls == [] then 0
    else Count(calls[..|calls| - 1], req) + (if calls[|calls| - 1].req == req then 1 else 0)
  }

  lemma CountCalledOnce(before: seq<BackendCall>, after: seq<BackendCall>, req: Request, q: Request)
    requires CalledOnce(before, after, req)
    ensures Count(after, q) == Count(before, q) + (if q == req then 1 else 0)
  {
    assert after[..|after| - 1] == before;
  }

  /** A DeleteBucket is issued for a stored claim exactly when it was
      provisioned and its policy is not Retain. */
  predicate NeedsBackendDelete(pbc: Claim) {
    pbc.status.Some? && pbc.status.value.provisioned && pbc.status.value.deletionPolicy != Retain
  }

  // ---------------------------------------------------------------------
  // The relations the four state-changing operations satisfy. Each one fixes
  // the whole new state; where an external call can fail, each outcome is a
  // separate disjunct.

  /** createBucket: one CreateBucket call named after the claim uid in the
      class region. If it fails, its error is returned and nothing else
      changes. Otherwise the provisioned claim is sent to the API server, and
      only if that update succeeds is it put into the fallback store. */
  ghost predicate CreateBucketStep(s: State, pbc: Claim, cls: BucketClass, s': State, r: Outcome) {
    && CalledOnce(s.calls, s'.calls, CreateBucketReq(pbc.uid, cls.region))
    && var s1 := s.(calls := s'.calls);
       if s'.calls[|s.calls|].reply != Succeeded then
         r == Fail(BackendError) && s' == s1
       else
         RecordClaimStep(s1, Provision(pbc, cls), s', r)
  }

  /** The provisioned claim is sent to the API server and, only if that
      succeeds, put into the fallback store. */
  ghost predicate RecordClaimStep(s: State, c: Claim, s': State, r: Outcome) {
    || (r == Fail(UpdateError) && s' == s)
    || (c.Ref() in s.claims && r == Pass &&
        s' == s.(claims := s.claims[c.Ref() := c], bucketStore := s.bucketStore[ObjectKey(c.Ref()) := c]))
  }

  /** deleteBucket: the claim leaves the fallback store on every path; a
      DeleteBucket with the recorded bucket id and region is issued only for a
      provisioned claim whose policy is not Retain, and its failure changes
      nothing else. */
  ghost predicate DeleteBucketStep(s: State, pbc: Claim, s': State) {
    var s1 := s.(bucketStore := s.bucketStore - {ObjectKey(pbc.Ref())});
    if NeedsBackendDelete(pbc) then
      && CalledOnce(s.calls, s'.calls, DeleteBucketReq(pbc.status.value.bucketId, pbc.status.value.region))
      && s' == s1.(calls := s'.calls)
    else
      s' == s1
  }

  /** The credentials secret is looked up and created with `data` if it does
      not exist yet; an existing secret is kept as it is. A Get or Create
      error changes nothing. */
  ghost predicate SecretStep(s: State, sref: ObjectRef, data: map<string, string>, s': State, r: Outcome) {
    || (r == Pass && s' == (if sref in s.secrets then s else s.(secrets := s.secrets[sref := data])))
    || (r == Fail(SecretGetError) && s' == s)
    || (sref !in s.secrets && r == Fail(SecretCreateError) && s' == s)
  }

  /** The granted access is sent to the API server and, only if that
      succeeds, put into the fallback store. */
  ghost predicate RecordAccessStep(s: State, a: Access, s': State, r: Outcome) {
    || (r == Fail(UpdateError) && s' == s)
    || (a.Ref() in s.accesses && r == Pass &&
        s' == s.(accesses := s.accesses[a.Ref() := a], accessStore := s.accessStore[ObjectKey(a.Ref()) := a]))
  }

  /** createAccess: one grant under the class account. A failed grant returns
      its error and changes nothing else. Otherwise the credentials secret is
      ensured (a secret error is returned before the status is touched), and
      the granted access is recorded. `pba'` is the caller's object
      afterwards (the status is filled in place). */
  ghost predicate CreateAccessStep(s: State, pba: Access, cls: BucketClass, bucketId: string,
                                   s': State, r: Outcome, pba': Access) {
    && CalledOnce(s.calls, s'.calls, GrantAccessReq(bucketId, GetAccountName(cls)))
    && var reply := s'.calls[|s.calls|].reply;
       var s1 := s.(calls := s'.calls);
       if !reply.Granted? then
         r == Fail(BackendError) && s' == s1 && pba' == pba
       else
         var name := GetCredentialsSecretName(pba);
         var sref := Ref(pba.namespace, name);
         var data := CredentialsData(reply);
         var s2 := if sref in s.secrets then s1 else s1.(secrets := s.secrets[sref := data]);
         || (r != Pass && SecretStep(s1, sref, data, s', r) && pba' == pba)
         || (pba' == Grant(pba, cls, bucketId, name, reply.accountId) && RecordAccessStep(s2, pba', s', r))
  }

  /** A createAccess that succeeds leaves the access granted for the bucket,
      the credentials secret it names present in the access's namespace, and
      the API server and the fallback store holding the granted access. */
  lemma CreateAccessGrants(s: State, pba: Access, cls: BucketClass, bucketId: string,
                           s': State, pba': Access)
    requires CreateAccessStep(s, pba, cls, bucketId, s', Pass, pba')
    ensures pba'.Ref() == pba.Ref() && pba'.status.Some? && pba'.status.value.accessGranted
    ensures pba'.status.value.bucketId == bucketId
    ensures pba'.status.value.credentialsSecretName == GetCredentialsSecretName(pba)
    ensures Ref(pba.namespace, pba'.status.value.credentialsSecretName) in s'.secrets
    ensures pba.Ref() in s'.accesses && s'.accesses[pba.Ref()] == pba'
    ensures ObjectKey(pba.Ref()) in s'.accessStore && s'.accessStore[ObjectKey(pba.Ref())] == pba'
    ensures s'.calls[|s.calls|].reply.Granted? && pba'.status.value.accountId == s'.calls[|s.calls|].reply.accountId
  {
  }

  /** revokeAccess: an access never granted only leaves the fallback store.
      Otherwise one RevokeBucket with the recorded bucket and account (whose
      failure is only logged), then the secret named in the status is
      deleted, and the access leaves the fallback store only if that delete
      succeeded: a secret already gone, or a failed delete, keeps the entry. */
  ghost predicate RevokeAccessStep(s: State, pba: Access, s': State) {
    if pba.status.None? || !pba.status.value.accessGranted then
      s' == s.(accessStore := s.accessStore - {ObjectKey(pba.Ref())})
    else
      RevokeGrantedStep(s, pba, s')
  }

  /** revokeAccess for a granted access. */
  ghost predicate RevokeGrantedStep(s: State, pba: Access, s': State)
    requires pba.status.Some?
  {
    var st := pba.status.value;
    var sref := Ref(pba.namespace, st.credentialsSecretName);
    var s1 := s.(calls := s'.calls);
    && CalledOnce(s.calls, s'.calls, RevokeAccessReq(st.bucketId, st.accountId))
    && if sref !in s.secrets then s' == s1
       else
         || s' == s1
         || s' == s1.(secrets := s.secrets - {sref}, accessStore := s.accessStore - {ObjectKey(pba.Ref())})
  }

  // ---------------------------------------------------------------------
  // What the fallback stores hold

  /** Some earlier call created bucket `name` in `region`. */
  ghost predicate Created(calls: seq<BackendCall>, name: string, region: string) {
    exists i :: 0 <= i < |calls| && calls[i] == BackendCall(CreateBucketReq(name, region), Succeeded)
  }

  /** Some earlier call granted account `accountId` on bucket `bucketId`. */
  ghost predicate GrantedAt(calls: seq<BackendCall>, bucketId: string, accountId: string) {
    exists i :: 0 <= i < |calls| && calls[i].req.GrantAccessReq? && calls[i].req.bucketId == bucketId
                && calls[i].reply.Granted? && calls[i].reply.accountId == accountId
  }

  ghost predicate StoredClaim(calls: seq<BackendCall>, k: string, c: Claim) {
    && ObjectKey(c.Ref()) == k
    && c.status.Some? && c.status.value.provisioned && c.status.value.bucketId == c.uid
    && Created(calls, c.uid, c.status.value.region)
  }

  ghost predicate StoredAccess(calls: seq<BackendCall>, k: string, a: Access) {
    && ObjectKey(a.Ref()) == k
    && a.status.Some? && a.status.value.accessGranted
    && GrantedAt(calls, a.status.value.bucketId, a.status.value.accountId)
  }

  /** Every claim in the fallback store sits under its own key, is provisioned
      under its uid, and was created at the backend; every access in it sits
      under its own key and was granted at the backend. */
  ghost predicate Consistent(s: State) {
    && (forall k :: k in s.bucketStore ==> StoredClaim(s.calls, k, s.bucketStore[k]))
    && (forall k :: k in s.accessStore ==> StoredAccess(s.calls, k, s.accessStore[k]))
  }

  /** Appending calls to the log keeps what the stores hold justified. */
  lemma ConsistentExtend(s: State, calls: seq<BackendCall>)
    requires Consistent(s)
    requires |s.calls| <= |calls| && calls[..|s.calls|] == s.calls
    ensures Consistent(s.(calls := calls))
  {
    forall k | k in s.bucketStore
      ensures StoredClaim(calls, k, s.bucketStore[k])
    {
      var c := s.bucketStore[k];
      var i :| 0 <= i < |s.calls| && s.calls[i] == BackendCall(CreateBucketReq(c.uid, c.status.value.region), Succeeded);
      assert calls[i] == s.calls[i];
    }
    forall k | k in s.accessStore
      ensures StoredAccess(calls, k, s.accessStore[k])
    {
      var a := s.accessStore[k];
      var st := a.status.value;
      var i :| 0 <= i < |s.calls| && s.calls[i].req.GrantAccessReq? && s.calls[i].req.bucketId == st.bucketId
               && s.calls[i].reply.Granted? && s.calls[i].reply.accountId == st.accountId;
      assert calls[i] == s.calls[i];
    }
  }

  lemma CreateBucketKeepsConsistent(s: State, pbc: Claim, cls: BucketClass, s': State, r: Outcome)
    requires Consistent(s) && CreateBucketStep(s, pbc, cls, s', r)
    ensures Consistent(s')
  {
    ConsistentExtend(s, s'.calls);
    if r == Pass {
      var p := Provision(pbc, cls);
      assert s'.calls[|s.calls|] == BackendCall(CreateBucketReq(p.uid, p.status.value.region), Succeeded);
      assert StoredClaim(s'.calls, ObjectKey(p.Ref()), p);
    }
  }

  lemma DeleteBucketKeepsConsistent(s: State, pbc: Claim, s': State)
    requires Consistent(s) && DeleteBucketStep(s, pbc, s')
    ensures Consistent(s')
  {
    ConsistentExtend(s, s'.calls);
  }

  lemma CreateAccessKeepsConsistent(s: State, pba: Access, cls: BucketClass, bucketId: string,
                                    s': State, r: Outcome, pba': Access)
    requires Consistent(s) && CreateAccessStep(s, pba, cls, bucketId, s', r, pba')
    ensures Consistent(s')
  {
    ConsistentExtend(s, s'.calls);
    if r == Pass {
      var i := |s.calls|;
      assert s'.calls[i].req.bucketId == pba'.status.value.bucketId;
      assert StoredAccess(s'.calls, ObjectKey(pba'.Ref()), pba');
    }
  }

  lemma RevokeAccessKeepsConsistent(s: State, pba: Access, s': State)
    requires Consistent(s) && RevokeAccessStep(s, pba, s')
    ensures Consistent(s')
  {
    ConsistentExtend(s, s'.calls);
  }

  /** Teardown with a backend call issues exactly one DeleteBucket, for the
      bucket id and region recorded in the status, and no other call. */
  lemma TeardownDeletesOnce(s: State, pbc: Claim, s': State, q: Request)
    requires DeleteBucketStep(s, pbc, s') && NeedsBackendDelete(pbc)
    ensures var del := DeleteBucketReq(pbc.status.value.bucketId, pbc.status.value.region);
            Count(s'.calls, q) == Count(s.calls, q) + (if q == del then 1 else 0)
  {
    CountCalledOnce(s.calls, s'.calls, DeleteBucketReq(pbc.status.value.bucketId, pbc.status.value.region), q);
  }

  /** The bucket a teardown deletes from the fallback store is one the
      controller created, in the same region. */
  lemma TeardownDeletesCreatedBucket(s: State, key: string, s': State)
    requires Consistent(s) && key in s.bucketStore
    requires DeleteBucketStep(s, s.bucketStore[key], s') && NeedsBackendDelete(s.bucketStore[key])
    ensures s'.calls[|s.calls|].req.DeleteBucketReq?
    ensures Created(s.calls, s'.calls[|s.calls|].req.bucketId, s'.calls[|s.calls|].req.region)
    ensures key !in s'.bucketStore
  {
    assert StoredClaim(s.calls, key, s.bucketStore[key]);
  }
}
