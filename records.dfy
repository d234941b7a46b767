/** The records the bucket controller reads and writes: bucket classes, bucket
    claims, bucket accesses, secrets, and the log of calls made to the object
    storage backend. Shapes follow the fields that the controller code uses. */
module Records {

  datatype Option<+T> = None | Some(value: T) {
    function GetOr(default: T): T {
      match this
      case Some(v) => v
      case None => default
    }
  }

  /** Namespace and name of a namespaced object. */
  datatype ObjectRef = Ref(namespace: string, name: string)

  /** The policy is a Go string: its zero value is Unset, and a value other
      than "Delete" or "Retain" is kept as Other. */
  datatype DeletionPolicy = Unset | Delete | Retain | Other(value: string)

  /** The policies that stand for a Go string: Other never holds a string
      that Unset, Delete or Retain already stands for. */
  type Policy = p: DeletionPolicy | !p.Other? || p.value !in {"", "Delete", "Retain"} witness Unset

  /** The Go string a policy stands for. */
  function PolicyString(p: DeletionPolicy): string {
    match p
    case Unset => ""
    case Delete => "Delete"
    case Retain => "Retain"
    case Other(v) => v
  }

  /** Each Go string has exactly one policy standing for it. */
  lemma PolicyStringInjective(p: Policy, q: Policy)
    ensures PolicyString(p) == PolicyString(q) <==> p == q
  { }

  /** A cluster-scoped template for claims. */
  datatype BucketClass = BucketClass(
    name: string,
    uid: string,
    region: string,
    deletionPolicy: Policy,
    parameters: map<string, string>)

  datatype ClaimSpec = ClaimSpec(bucketClassName: Option<string>)

  datatype ClaimStatus = ClaimStatus(
    provisioned: bool,
    bucketId: string,
    region: string,
    deletionPolicy: Policy,
    backendType: string,
    endpoint: string)

  /** The value of a freshly allocated status record. */
  const EmptyClaimStatus := ClaimStatus(false, "", "", Unset, "", "")

  /** A namespaced request for a bucket; a nil status is None. */
  datatype Claim = Claim(
    namespace: string,
    name: string,
    uid: string,
    spec: ClaimSpec,
    status: Option<ClaimStatus>)
  {
    function Ref(): ObjectRef { ObjectRef.Ref(namespace, name) }
  }

  datatype AccessSpec = AccessSpec(
    bucketClassName: string,
    bucketClaimName: string,
    existingBucketId: string)

  datatype AccessStatus = AccessStatus(
    accessGranted: bool,
    credentialsSecretName: string,
    accountId: string,
    bucketId: string,
    backendType: string)

  const EmptyAccessStatus := AccessStatus(false, "", "", "", "")

  /** A namespaced request for credentials to a bucket. */
  datatype Access = Access(
    namespace: string,
    name: string,
    spec: AccessSpec,
    status: Option<AccessStatus>)
  {
    function Ref(): ObjectRef { ObjectRef.Ref(namespace, name) }
  }

  /** Go's `m[k]` on a map of strings: the empty string when the key is absent. */
  function Param(m: map<string, string>, k: string): (v: string)
    ensures k in m ==> v == m[k]
    ensures k !in m ==> v == ""
  {
    if k in m then m[k] else ""
  }

  /** A request sent to the object storage backend. */
  datatype Request =
    | CreateBucketReq(name: string, region: string)
    | DeleteBucketReq(bucketId: string, region: string)
    | GrantAccessReq(bucketId: string, accountName: string)
    | RevokeAccessReq(bucketId: string, accountId: string)

  /** What the backend answered. A grant answers with an account and credentials. */
  datatype Reply =
    | Failed
    | Succeeded
    | Granted(accountId: string, accessKeyId: string, secretAccessKey: string)

  datatype BackendCall = BackendCall(req: Request, reply: Reply)

  /** The error a reconcile step returns; each error return of processBucket, createBucket and createAccess has its own tag. */
  datatype Error =
    | ListerError
    | NoClassReference
    | ClassListError
    | ClassGetError
    | BackendError
    | UpdateError
    | SecretGetError
    | SecretCreateError

  /** A Go `error` result: nil is Pass. */
  datatype Outcome = Pass | Fail(error: Error)

  /** Everything the controller can observe or change, apart from its work queue. */
  datatype State = State(
    claimCache: map<ObjectRef, Claim>,            // the informer cache behind the claim lister
    claims: map<ObjectRef, Claim>,                // the claims held by the API server
    classes: map<string, BucketClass>,            // the classes held by the API server
    accesses: map<ObjectRef, Access>,             // the accesses held by the API server
    bucketStore: map<string, Claim>,              // local fallback store for claims
    accessStore: map<string, Access>,             // local fallback store for accesses
    secrets: map<ObjectRef, map<string, string>>, // secrets and their data
    calls: seq<BackendCall>)                      // every backend call, in order
}
