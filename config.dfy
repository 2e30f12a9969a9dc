/**
 * The configuration of config/config.go after JSON decoding: three typed
 * lists of storage providers merged into one map keyed by name, and the
 * output rules passed through unchanged.
 */
module Config {
  import opened Wrappers

  datatype Auth = Auth(accessKey: string, secretKey: string, endpoint: string, token: string, space: string)

  datatype StorageProvider = StorageProvider(name: string, providerType: string, auth: Auth)

  /** An output rule: where to copy the object, and the key filters that select it. */
  datatype Output = Output(storageProviderName: string, path: string, suffix: seq<string>, prefix: seq<string>)

  /** The `storages` section: each list may be absent (a nil slice). */
  datatype Storages = Storages(
    s3: Option<seq<StorageProvider>>,
    minio: Option<seq<StorageProvider>>,
    onedata: Option<seq<StorageProvider>>)

  /** The document as decoded, before the providers are merged. */
  datatype RawConfig = RawConfig(storages: Storages, outputs: seq<Output>)

  datatype Config = Config(storageProviders: map<string, StorageProvider>, outputs: seq<Output>)

  /** The two errors of `ReadConfig`: the file cannot be read, or it is not a configuration. */
  datatype ConfigError = LoadError | FormatError

  const S3_TYPE := "s3"
  const MINIO_TYPE := "minio"
  const ONEDATA_TYPE := "onedata"

  /** An absent list ranges over nothing. */
  function Entries(list: Option<seq<StorageProvider>>): seq<StorageProvider> {
    if list.None? then [] else list.value
  }

  /** A map lookup that says whether the key is there. */
  function Get<K, V>(m: map<K, V>, k: K): Option<V> {
    if k in m then Some(m[k]) else None
  }

  // ---------------------------------------------------------------------
  // Specification of convertStorages
  // ---------------------------------------------------------------------

  /** The map one loop of `convertStorages` leaves: `list` inserted in order, each entry's type set to `t`. */
  function Insert(m: map<string, StorageProvider>, list: seq<StorageProvider>, t: string): map<string, StorageProvider>
    decreases |list|
  {
    if list == [] then m
    else
      var last := list[|list| - 1];
      Insert(m, list[..|list| - 1], t)[last.name := last.(providerType := t)]
  }

  /** The map `convertStorages` returns: the s3 list, then the minio list, then the onedata list. */
  function Converted(s: Storages): map<string, StorageProvider> {
    Insert(Insert(Insert(map[], Entries(s.s3), S3_TYPE), Entries(s.minio), MINIO_TYPE), Entries(s.onedata), ONEDATA_TYPE)
  }

  /** The last entry of a list with a given name. */
  function LastNamed(list: seq<StorageProvider>, n: string): (r: Option<StorageProvider>)
    ensures r.Some? ==> r.value.name == n && r.value in list
    ensures r.None? <==> forall i :: 0 <= i < |list| ==> list[i].name != n
    ensures r.Some? ==>
      exists i :: 0 <= i < |list| && list[i] == r.value && forall j :: i < j < |list| ==> list[j].name != n
  {
    if list == [] then None
    else if list[|list| - 1].name == n then Some(list[|list| - 1])
    else
      var r := LastNamed(list[..|list| - 1], n);
      assert forall i :: 0 <= i < |list| - 1 ==> list[..|list| - 1][i] == list[i];
      r
  }

  /**
   * The provider a name ends up with, stated without the loops: the onedata
   * list beats the minio list, which beats the s3 list; within a list the
   * later entry wins; the type is that of the winning list.
   */
  function Winner(s: Storages, n: string): Option<StorageProvider> {
    var onedata, minio, s3 := LastNamed(Entries(s.onedata), n), LastNamed(Entries(s.minio), n), LastNamed(Entries(s.s3), n);
    if onedata.Some? then Some(onedata.value.(providerType := ONEDATA_TYPE))
    else if minio.Some? then Some(minio.value.(providerType := MINIO_TYPE))
    else if s3.Some? then Some(s3.value.(providerType := S3_TYPE))
    else None
  }

  /** One loop of inserts, seen from one name: the last entry with that name, retyped, or what was there. */
  lemma {:induction false} InsertLookup(m: map<string, StorageProvider>, list: seq<StorageProvider>, t: string, n: string)
    ensures Get(Insert(m, list, t), n) ==
            if LastNamed(list, n).Some? then Some(LastNamed(list, n).value.(providerType := t)) else Get(m, n)
    decreases |list|
  {
    if list != [] {
      InsertLookup(m, list[..|list| - 1], t, n);
    }
  }

  /** The loops of `convertStorages` compute the winner of every name. */
  lemma ConvertedIsWinner(s: Storages, n: string)
    ensures Get(Converted(s), n) == Winner(s, n)
  {
    var m1 := Insert(map[], Entries(s.s3), S3_TYPE);
    var m2 := Insert(m1, Entries(s.minio), MINIO_TYPE);
    InsertLookup(map[], Entries(s.s3), S3_TYPE, n);
    InsertLookup(m1, Entries(s.minio), MINIO_TYPE, n);
    InsertLookup(m2, Entries(s.onedata), ONEDATA_TYPE, n);
  }

  /**
   * Every stored provider is a configured entry with only its type changed,
   * is stored under its own name, and has one of the three types.
   */
  lemma WinnerCopiesEntry(s: Storages, n: string)
    ensures Winner(s, n).Some? ==>
      var p := Winner(s, n).value;
      && p.name == n
      && p.providerType in {S3_TYPE, MINIO_TYPE, ONEDATA_TYPE}
      && exists q :: q in Entries(s.s3) + Entries(s.minio) + Entries(s.onedata) && p == q.(providerType := p.providerType)
  {
    if Winner(s, n).Some? {
      var onedata, minio, s3 := LastNamed(Entries(s.onedata), n), LastNamed(Entries(s.minio), n), LastNamed(Entries(s.s3), n);
      var all := Entries(s.s3) + Entries(s.minio) + Entries(s.onedata);
      if onedata.Some? {
        assert onedata.value in all;
      } else if minio.Some? {
        assert minio.value in all;
      } else {
        assert s3.value in all;
      }
    }
  }

  /** A name is stored exactly when one of the three lists holds an entry with that name. */
  lemma ConvertedKeys(s: Storages, n: string)
    ensures n in Converted(s) <==>
      exists q :: q in Entries(s.s3) + Entries(s.minio) + Entries(s.onedata) && q.name == n
  {
    ConvertedIsWinner(s, n);
    var all := Entries(s.s3) + Entries(s.minio) + Entries(s.onedata);
    if exists q :: q in all && q.name == n {
      var q :| q in all && q.name == n;
      if q in Entries(s.s3) {
        var i :| 0 <= i < |Entries(s.s3)| && Entries(s.s3)[i] == q;
      } else if q in Entries(s.minio) {
        var i :| 0 <= i < |Entries(s.minio)| && Entries(s.minio)[i] == q;
      } else {
        var i :| 0 <= i < |Entries(s.onedata)| && Entries(s.onedata)[i] == q;
      }
    }
  }

  /** Absent lists contribute nothing: absent and empty are the same, and all absent gives the empty map. */
  lemma AbsentListsContributeNothing(s: Storages)
    ensures Converted(Storages(None, None, None)) == map[]
    ensures Converted(s.(s3 := None)) == Converted(s.(s3 := Some([])))
    ensures Converted(s.(minio := None)) == Converted(s.(minio := Some([])))
    ensures Converted(s.(onedata := None)) == Converted(s.(onedata := Some([])))
  {
  }

  /**
   * A configuration with one s3 provider without credentials and one minio
   * provider with them: both are stored under their names, stamped with
   * their list's type, and nothing else is stored.
   */
  lemma TwoListScenario(s3Name: string, minioName: string, minioAuth: Auth)
    requires s3Name != minioName
    ensures var s := Storages(Some([StorageProvider(s3Name, "", Auth("", "", "", "", ""))]),
                              Some([StorageProvider(minioName, "", minioAuth)]), None);
      Converted(s) == map[s3Name := StorageProvider(s3Name, S3_TYPE, Auth("", "", "", "", "")),
                          minioName := StorageProvider(minioName, MINIO_TYPE, minioAuth)]
  {
    var s3List := [StorageProvider(s3Name, "", Auth("", "", "", "", ""))];
    var minioList := [StorageProvider(minioName, "", minioAuth)];
    assert s3List[..0] == [] && minioList[..0] == [];
    assert Insert(map[], s3List[..0], S3_TYPE) == map[];
    var m1 := Insert(map[], s3List, S3_TYPE);
    assert m1 == map[s3Name := StorageProvider(s3Name, S3_TYPE, Auth("", "", "", "", ""))];
    assert Insert(m1, minioList, MINIO_TYPE) == m1[minioName := StorageProvider(minioName, MINIO_TYPE, minioAuth)];
  }

  // ---------------------------------------------------------------------
  // convertStorages and ReadConfig
  // ---------------------------------------------------------------------

  /** One loop of `convertStorages`: each entry, retyped, overwrites whatever the map holds under its name. */
  method AddProviders(providers: map<string, StorageProvider>, list: seq<StorageProvider>, t: string)
    returns (result: map<string, StorageProvider>)
    ensures result == Insert(providers, list, t)
  {
    result := providers;
    for i := 0 to |list|
      invariant result == Insert(providers, list[..i], t)
    {
      var entry := list[i];
      entry := entry.(providerType := t);
      assert list[..i + 1][..i] == list[..i];
      result := result[entry.name := entry];
    }
    assert list[..|list|] == list;
  }

  /**
   * `convertStorages`: the providers of the three lists, stored by name with
   * their type stamped; for each name the entry `Winner` picks.
   */
  method ConvertStorages(s: Storages) returns (providers: map<string, StorageProvider>)
    ensures providers == Converted(s)
    ensures forall n :: Get(providers, n) == Winner(s, n)
    ensures forall n :: n in providers ==> providers[n].name == n
  {
    providers := map[];
    if s.s3.Some? {
      providers := AddProviders(providers, s.s3.value, S3_TYPE);
    }
    if s.minio.Some? {
      providers := AddProviders(providers, s.minio.value, MINIO_TYPE);
    }
    if s.onedata.Some? {
      providers := AddProviders(providers, s.onedata.value, ONEDATA_TYPE);
    }
    forall n ensures Get(providers, n) == Winner(s, n) {
      ConvertedIsWinner(s, n);
    }
    forall n | n in providers ensures providers[n].name == n {
      ConvertedIsWinner(s, n);
      WinnerCopiesEntry(s, n);
    }
  }

  /**
   * `ReadConfig`, with the reading of the file and the JSON decoding given:
   * `readOk` is false when the file cannot be read, `decoded` is `None` when
   * its text is not a configuration.
   */
  method ReadConfig(readOk: bool, decoded: Option<RawConfig>) returns (r: Result<Config, ConfigError>)
    ensures !readOk ==> r == Failure(LoadError)
    ensures readOk && decoded.None? ==> r == Failure(FormatError)
    ensures readOk && decoded.Some? ==>
      && r.Success?
      && r.value.outputs == decoded.value.outputs
      && r.value.storageProviders == Converted(decoded.value.storages)
      && (forall n :: Get(r.value.storageProviders, n) == Winner(decoded.value.storages, n))
  {
    if !readOk {
      return Failure(LoadError);
    }
    if decoded.None? {
      return Failure(FormatError);
    }
    var c := decoded.value;
    var providers := ConvertStorages(c.storages);
    r := Success(Config(providers, c.outputs));
  }
}
