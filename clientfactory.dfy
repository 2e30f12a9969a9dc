/**
 * The storage-client factory of clients/clientfactory.go. A `StorageClient`
 * interface value is modelled as an optional MinIO client: the MinIO client
 * is the only implementation, and `None` is the nil interface.
 */
module ClientFactory {
  import opened Wrappers
  import opened Strings
  import Config
  import Minio

  type StorageClient = Option<Minio.Client>

  /** `t` spells `word` up to the case of ASCII letters, letter by letter. */
  predicate SameIgnoringCase(t: string, word: string) {
    |t| == |word| && (t == [] || (LowerChar(t[0]) == LowerChar(word[0]) && SameIgnoringCase(t[1..], word[1..])))
  }

  /** Comparing ignoring case is comparing the lower-cased strings. */
  lemma {:induction false} SameIgnoringCaseLower(t: string, word: string)
    ensures SameIgnoringCase(t, word) <==> ToLower(t) == ToLower(word)
  {
    if |t| == |word| && t != [] {
      SameIgnoringCaseLower(t[1..], word[1..]);
      assert ToLower(t) == [LowerChar(t[0])] + ToLower(t[1..]);
      assert ToLower(word) == [LowerChar(word[0])] + ToLower(word[1..]);
    }
  }

  /** Lower-casing gives "minio" exactly for the casings of "minio". */
  lemma LowerIsMinio(t: string)
    ensures ToLower(t) == "minio" <==> SameIgnoringCase(t, "minio")
  {
    SameIgnoringCaseLower(t, "minio");
    assert ToLower("minio") == "minio";
  }

  /**
   * `GetClient`: a client exists exactly for the casings of "minio", and it
   * is built from the endpoint and the two keys; every other type is nil.
   */
  function GetClient(provider: Config.StorageProvider): (r: StorageClient)
    ensures r.Some? <==> SameIgnoringCase(provider.providerType, "minio")
    ensures r.Some? ==> r.value == Minio.Client(provider.auth.endpoint, provider.auth.accessKey, provider.auth.secretKey)
  {
    LowerIsMinio(provider.providerType);
    if ToLower(provider.providerType) == "minio" then
      Some(Minio.Client(provider.auth.endpoint, provider.auth.accessKey, provider.auth.secretKey))
    else None
  }

  /** The three types a configuration stamps: only "minio" gets a client. */
  lemma ConfiguredTypes(provider: Config.StorageProvider)
    ensures provider.providerType == Config.MINIO_TYPE ==> GetClient(provider).Some?
    ensures provider.providerType == Config.S3_TYPE ==> GetClient(provider) == None
    ensures provider.providerType == Config.ONEDATA_TYPE ==> GetClient(provider) == None
  {
  }

  /** The name, the token and the space are never consulted. */
  lemma GetClientIgnoresOtherFields(p: Config.StorageProvider, q: Config.StorageProvider)
    requires p.providerType == q.providerType
    requires p.auth.endpoint == q.auth.endpoint && p.auth.accessKey == q.auth.accessKey && p.auth.secretKey == q.auth.secretKey
    ensures GetClient(p) == GetClient(q)
  {
  }
}
