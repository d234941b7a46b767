/** Object keys of the informer machinery: a namespaced object is keyed
    "namespace/name", an object without a namespace by its bare name, and a key
    is split back at '/'. The client-go cache package that defines them is not
    part of this model; these functions follow its documented behaviour. */
module Keys {
  import opened Records

  /** Two distinct positions of `key` hold '/'. */
  ghost predicate HasTwoSlashes(key: string) {
    exists i, j :: 0 <= i < j < |key| && key[i] == '/' && key[j] == '/'
  }

  /** The first position of `c` in `s`, if any. */
  function IndexOf(s: string, c: char): (r: Option<nat>)
    ensures r.None? <==> c !in s
    ensures r.Some? ==> r.value < |s| && s[r.value] == c && c !in s[..r.value]
  {
    if |s| == 0 then None
    else if s[0] == c then Some(0)
    else
      match IndexOf(s[1..], c)
      case None => None
      case Some(i) =>
        assert s[..i + 1] == [s[0]] + s[1..][..i];
        Some(i + 1)
  }

  /** The key of an object: "namespace/name", or the bare name when the
      namespace is empty (MetaNamespaceKeyFunc). */
  function ObjectKey(ref: ObjectRef): string {
    if ref.namespace == "" then ref.name else ref.namespace + "/" + ref.name
  }

  /** SplitMetaNamespaceKey: a key without '/' is a bare name, a key with one
      '/' is namespace and name, and any other key is malformed (None). */
  function SplitKey(key: string): (r: Option<ObjectRef>)
    ensures r.None? <==> HasTwoSlashes(key)
    ensures r.Some? ==> '/' !in r.value.namespace && '/' !in r.value.name
    ensures r.Some? && '/' !in key ==> r.value == Ref("", key)
    ensures r.Some? && '/' in key ==> key == r.value.namespace + "/" + r.value.name
  {
    match IndexOf(key, '/')
    case None => Some(Ref("", key))
    case Some(i) =>
      var rest := key[i + 1..];
      match IndexOf(rest, '/')
      case Some(j) =>
        assert key[i] == '/' && key[i + 1 + j] == '/';
        None
      case None =>
        assert key == key[..i] + "/" + rest;
        forall a | 0 <= a < i ensures key[a] != '/' { assert key[a] == key[..i][a]; }
        forall a | i < a < |key| ensures key[a] != '/' { assert key[a] == rest[a - i - 1]; }
        Some(Ref(key[..i], rest))
  }

  /** Splitting the key of an object whose namespace and name hold no '/'
      gives that object back. */
  lemma SplitObjectKey(ref: ObjectRef)
    requires '/' !in ref.namespace && '/' !in ref.name
    ensures SplitKey(ObjectKey(ref)) == Some(ref)
  {
    var key := ObjectKey(ref);
    if ref.namespace != "" {
      var n := |ref.namespace|;
      assert key[n] == '/';
      assert key[..n] == ref.namespace;
      assert key[n + 1..] == ref.name;
      forall a | 0 <= a < n ensures key[a] != '/' { assert key[a] == ref.namespace[a]; }
      forall a | n < a < |key| ensures key[a] != '/' { assert key[a] == ref.name[a - n - 1]; }
    }
  }

  /** Joining the parts of a well-formed key gives the key back, unless the
      key starts with '/' (its empty namespace is then lost). */
  lemma ObjectKeyOfSplit(key: string)
    requires SplitKey(key).Some?
    requires key == [] || key[0] != '/'
    ensures ObjectKey(SplitKey(key).value) == key
  {
    var ref := SplitKey(key).value;
    if '/' in key {
      assert key == ref.namespace + "/" + ref.name;
      assert ref.namespace != "" by {
        assert key[|ref.namespace|] == '/';
      }
    }
  }
}
