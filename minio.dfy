/**
 * The MinIO storage client of clients/minio.go: the path arithmetic of
 * `Download` and `Upload` (the local file name, the bucket/key split and the
 * name returned), with the file-system and SDK calls replaced by an outcome
 * the caller supplies.
 */
module Minio {
  import opened Wrappers

  /** A client as `getMinioClient` builds it from an endpoint and two credentials. */
  datatype Client = Client(endpoint: string, accessKey: string, secretKey: string)

  predicate AllSlashes(s: string) {
    forall i :: 0 <= i < |s| ==> s[i] == '/'
  }

  // ---------------------------------------------------------------------
  // strings.Trim(s, "/")
  // ---------------------------------------------------------------------

  /** Drops the leading slashes. */
  function TrimLeft(s: string): (r: string)
    ensures |r| <= |s| && r == s[|s| - |r|..]
    ensures AllSlashes(s[..|s| - |r|])
    ensures r == [] || r[0] != '/'
  {
    if s == [] || s[0] != '/' then s else TrimLeft(s[1..])
  }

  /** Drops the trailing slashes. */
  function TrimRight(s: string): (r: string)
    ensures |r| <= |s| && r == s[..|r|]
    ensures AllSlashes(s[|r|..])
    ensures r == [] || r[|r| - 1] != '/'
  {
    if s == [] || s[|s| - 1] != '/' then s else TrimRight(s[..|s| - 1])
  }

  /**
   * `strings.Trim(s, "/")`: leading slashes first, then trailing ones. What
   * is left neither starts nor ends with a slash; `TrimmedJoin` shows that
   * it is exactly the text between the slashes at both ends.
   */
  function TrimSlashes(s: string): (r: string)
    ensures |r| <= |s|
    ensures r == [] || (r[0] != '/' && r[|r| - 1] != '/')
    ensures AllSlashes(s) ==> r == []
  {
    var l := TrimLeft(s);
    var r := TrimRight(l);
    assert r != [] ==> r[0] == l[0];
    r
  }

  /** Leading slashes are dropped and nothing after them. */
  lemma {:induction false} TrimLeftAfterSlashes(lead: string, s: string)
    requires AllSlashes(lead)
    requires s == [] || s[0] != '/'
    ensures TrimLeft(lead + s) == s
  {
    if lead != [] {
      assert (lead + s)[1..] == lead[1..] + s;
      TrimLeftAfterSlashes(lead[1..], s);
    } else {
      assert lead + s == s;
    }
  }

  /** Trailing slashes are dropped and nothing before them. */
  lemma {:induction false} TrimRightBeforeSlashes(s: string, trail: string)
    requires AllSlashes(trail)
    requires s == [] || s[|s| - 1] != '/'
    ensures TrimRight(s + trail) == s
  {
    if trail != [] {
      assert (s + trail)[..|s + trail| - 1] == s + trail[..|trail| - 1];
      TrimRightBeforeSlashes(s, trail[..|trail| - 1]);
    } else {
      assert s + trail == s;
    }
  }

  // ---------------------------------------------------------------------
  // strings.SplitN(strings.Trim(path, "/"), "/", 2)
  // ---------------------------------------------------------------------

  /** The index of the first slash, or the length when there is none. */
  function FirstSlash(s: string): (i: nat)
    ensures i <= |s| && '/' !in s[..i]
    ensures i < |s| ==> s[i] == '/'
  {
    if s == [] || s[0] == '/' then 0
    else
      var i := 1 + FirstSlash(s[1..]);
      assert s[..i] == [s[0]] + s[1..][..i - 1];
      i
  }

  /**
   * The bucket and the key a storage path names: the text before the first
   * slash of the trimmed path, and all of the rest. `None` when the trimmed
   * path has no slash, where the source indexes `pathSlice[1]` out of range.
   */
  function SplitBucketKey(path: string): (r: Option<(string, string)>)
    ensures r.None? <==> '/' !in TrimSlashes(path)
    ensures r.Some? ==> r.value.0 + "/" + r.value.1 == TrimSlashes(path)
    ensures r.Some? ==> '/' !in r.value.0
  {
    var t := TrimSlashes(path);
    var i := FirstSlash(t);
    if i == |t| then
      assert t[..i] == t;
      None
    else
      JoinAround(t, i);
      Some((t[..i], t[i + 1..]))
  }

  /** A string is the text before one of its bytes, that byte, and the text after it. */
  lemma JoinAround(t: string, i: nat)
    requires i < |t|
    ensures t[..i] + [t[i]] + t[i + 1..] == t
  {
    assert t[..i] + [t[i]] == t[..i + 1];
  }

  /** Trimming only removes slashes: a non-slash byte stays behind the cut. */
  lemma {:induction false} TrimLeftKeeps(s: string, i: nat)
    requires i < |s| && s[i] != '/'
    ensures |s| - |TrimLeft(s)| <= i
  {
    var r := TrimLeft(s);
    if i >= |s| - |r| {
    } else {
      assert false;
    }
  }

  lemma {:induction false} TrimRightKeeps(s: string, i: nat)
    requires i < |s| && s[i] != '/'
    ensures i < |TrimRight(s)|
  {
    var r := TrimRight(s);
    if i < |r| {
    } else {
      assert false;
    }
  }

  lemma {:induction false} FirstSlashOfJoin(bucket: string, key: string)
    requires '/' !in bucket
    ensures FirstSlash(bucket + "/" + key) == |bucket|
  {
    if bucket != [] {
      assert (bucket + "/" + key)[1..] == bucket[1..] + "/" + key;
      FirstSlashOfJoin(bucket[1..], key);
    }
  }

  lemma TrimmedJoin(lead: string, inner: string, trail: string)
    requires AllSlashes(lead) && AllSlashes(trail)
    requires inner != [] && inner[0] != '/' && inner[|inner| - 1] != '/'
    ensures TrimSlashes(lead + inner + trail) == inner
  {
    assert lead + inner + trail == lead + (inner + trail);
    TrimLeftAfterSlashes(lead, inner + trail);
    TrimRightBeforeSlashes(inner, trail);
  }

  lemma SplitOfTrimmed(path: string, bucket: string, key: string)
    requires '/' !in bucket
    requires TrimSlashes(path) == bucket + "/" + key
    ensures SplitBucketKey(path) == Some((bucket, key))
  {
    var inner := bucket + "/" + key;
    FirstSlashOfJoin(bucket, key);
    assert inner[..|bucket|] == bucket;
    assert inner[|bucket| + 1..] == key;
  }

  /**
   * Splitting inverts joining: a bucket without slashes and a key not ending
   * in one, joined by a slash and wrapped in any slashes, split back.
   */
  lemma SplitJoin(lead: string, bucket: string, key: string, trail: string)
    requires AllSlashes(lead) && AllSlashes(trail)
    requires bucket != [] && '/' !in bucket
    requires key != [] && key[|key| - 1] != '/'
    ensures SplitBucketKey(lead + bucket + "/" + key + trail) == Some((bucket, key))
  {
    var inner := bucket + "/" + key;
    var whole := lead + bucket + "/" + key + trail;
    assert TrimSlashes(whole) == inner by {
      assert inner[0] == bucket[0] && inner[|inner| - 1] == key[|key| - 1];
      assert whole == lead + inner + trail;
      TrimmedJoin(lead, inner, trail);
    }
    SplitOfTrimmed(whole, bucket, key);
  }

  /**
   * A path whose bucket part and key part each hold something other than
   * slashes always splits: this is when the source does not panic.
   */
  lemma SplitsWithContent(bucket: string, key: string, i: nat, j: nat)
    requires i < |bucket| && bucket[i] != '/'
    requires j < |key| && key[j] != '/'
    ensures SplitBucketKey(bucket + "/" + key).Some?
  {
    var s := bucket + "/" + key;
    var l := TrimLeft(s);
    var d := |s| - |l|;
    assert d <= i by {
      assert s[i] == bucket[i];
      TrimLeftKeeps(s, i);
    }
    var slash, other := |bucket| - d, |bucket| + 1 + j - d;
    assert l == s[d..];
    assert l[slash] == '/' by { assert s[d..][slash] == s[|bucket|]; }
    assert l[other] != '/' by { assert s[d..][other] == s[|bucket| + 1 + j] == key[j]; }
    SlashSurvivesTrimRight(l, slash, other);
  }

  lemma SlashSurvivesTrimRight(l: string, slash: nat, other: nat)
    requires slash < other < |l| && l[slash] == '/' && l[other] != '/'
    ensures '/' in TrimRight(l)
  {
    TrimRightKeeps(l, other);
    assert TrimRight(l)[slash] == '/';
  }

  // ---------------------------------------------------------------------
  // filepath.Base
  // ---------------------------------------------------------------------

  /** The text after the last slash. */
  function LastElement(s: string): (r: string)
    ensures '/' !in r
    ensures |r| <= |s| && r == s[|s| - |r|..]
    ensures |r| < |s| ==> s[|s| - |r| - 1] == '/'
    ensures s != [] && s[|s| - 1] != '/' ==> r != []
  {
    if s == [] || s[|s| - 1] == '/' then []
    else
      var r := LastElement(s[..|s| - 1]) + [s[|s| - 1]];
      assert s[..|s| - 1][|s| - 1 - (|r| - 1)..] + [s[|s| - 1]] == s[|s| - |r|..];
      r
  }

  /**
   * `filepath.Base` on a slash-separated path: "." for the empty path, "/"
   * for a path of slashes only, otherwise the last element once trailing
   * slashes are dropped.
   */
  function Base(path: string): (r: string)
    ensures r != []
    ensures r == "/" || '/' !in r
    ensures r == "/" <==> path != [] && AllSlashes(path)
    ensures path == [] ==> r == "."
    ensures path != [] && !AllSlashes(path) ==> r == LastElement(TrimRight(path))
  {
    if path == [] then "."
    else
      var t := TrimRight(path);
      if t == [] then
        assert path[|t|..] == path;
        "/"
      else
        var r := LastElement(t);
        assert !AllSlashes(path) by { assert path[|t| - 1] == t[|t| - 1]; }
        r
  }

  /** The base of `dir + "/" + name` is `name` when `name` is a plain element. */
  lemma {:induction false} BaseOfJoin(dir: string, name: string)
    requires name != [] && '/' !in name
    ensures Base(dir + "/" + name) == name
  {
    var s := dir + "/" + name;
    assert s[|s| - 1] == name[|name| - 1];
    TrimRightBeforeSlashes(s, []);
    assert s + [] == s;
    LastElementOfJoin(dir, name);
  }

  lemma {:induction false} LastElementOfJoin(dir: string, name: string)
    requires '/' !in name
    ensures LastElement(dir + "/" + name) == name
  {
    var s := dir + "/" + name;
    if name == [] {
      assert s[|s| - 1] == '/';
    } else {
      assert s[|s| - 1] == name[|name| - 1];
      assert s[..|s| - 1] == dir + "/" + name[..|name| - 1];
      LastElementOfJoin(dir, name[..|name| - 1]);
      assert name[..|name| - 1] + [name[|name| - 1]] == name;
    }
  }

  /** A path that splits into a bucket and a key has a proper base name. */
  lemma SplitPathHasBase(path: string)
    requires SplitBucketKey(path).Some?
    ensures Base(path) != "/"
  {
    if path != [] && AllSlashes(path) {
      TrimLeftAfterSlashes(path, []);
    }
  }

  // ---------------------------------------------------------------------
  // Download and Upload
  // ---------------------------------------------------------------------

  /** How the file-system and SDK steps of a download turn out. */
  datatype DownloadIo = DownloadSucceeds | CreateFails | GetObjectFails | CopyFails

  datatype DownloadError = ErrCreatingFile | ErrDownloadingFile | ErrSavingFile

  /** What `Download` does: panics on a path without a key, or returns a name and an error. */
  datatype DownloadResult =
    | DownloadPanics
    | Downloaded(fileName: string, err: Option<DownloadError>)

  /**
   * `minioClient.Download(directory, path)`. The local file is
   * `directory + "/" + Base(path)`; every failure returns the empty name.
   */
  function Download(c: Client, directory: string, path: string, io: DownloadIo): (r: DownloadResult)
    ensures r.DownloadPanics? <==> SplitBucketKey(path).None?
    ensures r.Downloaded? ==> (r.err.None? <==> io == DownloadSucceeds)
    ensures r.Downloaded? ==> (r.fileName == "" <==> r.err.Some?)
    ensures r.Downloaded? && r.err.None? ==>
              r.fileName == directory + "/" + Base(path) && Base(r.fileName) == Base(path)
  {
    var fileName := Base(path);
    if SplitBucketKey(path).None? then DownloadPanics
    else
      match io
      case CreateFails => Downloaded("", Some(ErrCreatingFile))
      case GetObjectFails => Downloaded("", Some(ErrDownloadingFile))
      case CopyFails => Downloaded("", Some(ErrSavingFile))
      case DownloadSucceeds =>
        SplitPathHasBase(path);
        BaseOfJoin(directory, fileName);
        Downloaded(directory + "/" + fileName, None)
  }

  /** How the file-system and SDK steps of an upload turn out. */
  datatype UploadIo = UploadSucceeds | OpenFails | PutObjectFails

  datatype UploadError = ErrOpeningFile | ErrUploadingFile

  /** What `Upload` does: panics on a path without a key, or returns an error or nil. */
  datatype UploadResult = UploadPanics | Uploaded(err: Option<UploadError>)

  /** `minioClient.Upload(file, path)`: the destination path is split like the download path. */
  function Upload(c: Client, file: string, path: string, io: UploadIo): (r: UploadResult)
    ensures r.UploadPanics? <==> SplitBucketKey(path).None?
    ensures r.Uploaded? ==> (r.err.None? <==> io == UploadSucceeds)
  {
    if SplitBucketKey(path).None? then UploadPanics
    else
      match io
      case OpenFails => Uploaded(Some(ErrOpeningFile))
      case PutObjectFails => Uploaded(Some(ErrUploadingFile))
      case UploadSucceeds => Uploaded(None)
  }
}
