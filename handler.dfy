/**
 * `Handle` of handler.go: read the configuration and the event, select the
 * outputs, download the object from a storage provider of the event's
 * source, and upload it to every selected provider.
 *
 * The environment (variables, files, temporary directory, the outcome of
 * every SDK call) is a parameter, and the effects of a run are the list of
 * `Call`s it makes. Go iterates maps in an unspecified order; the two loops
 * over maps take their order as a parameter that enumerates the map's keys.
 */
module Handler {
  import opened Wrappers
  import opened Config
  import Events
  import Routing
  import Minio
  import ClientFactory

  const SECRETS_DIR := "/var/openfaas/secrets/"
  const DEFAULT_CONFIG := "config"

  /** A secret file: whether its bytes can be read, and the configuration they decode to, if any. */
  datatype ConfigFile = ConfigFile(readOk: bool, decoded: Option<RawConfig>)

  /**
   * What a run sees of the world: the CONFIG_FILE variable, the files that
   * open, the request decoded as JSON (`None` when it is not JSON), the
   * temporary directory (`None` when it cannot be created) and how each
   * provider's download and upload turn out.
   */
  datatype Environment = Environment(
    configFileVar: Option<string>,
    secrets: map<string, ConfigFile>,
    request: Option<Events.Json>,
    tempDir: Option<string>,
    downloadIo: string -> Minio.DownloadIo,
    uploadIo: string -> Minio.UploadIo)

  /** One SDK call that returned, with the provider it went to and the error it returned. */
  datatype Call =
    | DownloadCall(provider: string, client: Minio.Client, directory: string, path: string,
                   downloadError: Option<Minio.DownloadError>)
    | UploadCall(provider: string, client: Minio.Client, file: string, path: string,
                 uploadError: Option<Minio.UploadError>)

  /** The `return ""` a run ends with. */
  datatype Exit =
    | ConfigUnavailable
    | ConfigInvalid(error: ConfigError)
    | EventInvalid
    | NoMatchingOutput
    | TempDirFailed
    | NotDownloaded
    | Completed

  /** Where a run panics: in `ReadEvent`, on a nil client, or on a path without a key. */
  datatype PanicSite =
    | EventPanic(field: string)
    | NilSourceClient(provider: string)
    | SourcePathPanic(provider: string)
    | NilUploadClient(provider: string)
    | UploadPathPanic(provider: string)

  datatype Outcome = Returned(exit: Exit) | Panicked(site: PanicSite)

  /** What the run knows once the temporary directory exists. */
  datatype Prepared = Prepared(
    providers: map<string, StorageProvider>,
    event: Events.Event,
    dest: map<string, string>,
    dir: string)

  /** The loop variables: the clients made so far, the downloaded file, the calls made, and a panic. */
  datatype State = State(
    clients: map<string, ClientFactory.StorageClient>,
    fileName: string,
    calls: seq<Call>,
    halt: Option<PanicSite>)

  const Start := State(map[], "", [], None)

  /** `order` lists every key of `keys` exactly once. */
  ghost predicate Enumerates(order: seq<string>, keys: set<string>) {
    && (forall n :: n in keys <==> n in order)
    && (forall i, j :: 0 <= i < j < |order| ==> order[i] != order[j])
  }

  // ---------------------------------------------------------------------
  // Specification of a run
  // ---------------------------------------------------------------------

  /** The secret file read: CONFIG_FILE if set, "config" otherwise. */
  function ConfigPath(configFileVar: Option<string>): string {
    SECRETS_DIR + (if configFileVar.Some? then configFileVar.value else DEFAULT_CONFIG)
  }

  /** Everything before the download: the early returns, or what the transfer works with. */
  function Prepare(env: Environment): Result<Prepared, Outcome>
  {
    var path := ConfigPath(env.configFileVar);
    if path !in env.secrets then Failure(Returned(ConfigUnavailable))
    else
      var file := env.secrets[path];
      if !file.readOk then Failure(Returned(ConfigInvalid(LoadError)))
      else if file.decoded.None? then Failure(Returned(ConfigInvalid(FormatError)))
      else
        var raw := file.decoded.value;
        var read := Events.ReadEvent(env.request);
        if read.Panic? then Failure(Panicked(EventPanic(read.field)))
        else if read.InvalidEvent? then Failure(Returned(EventInvalid))
        else
          var dest := Routing.Destinations(read.event.objectKey, raw.outputs);
          if |dest| == 0 then Failure(Returned(NoMatchingOutput))
          else if env.tempDir.None? then Failure(Returned(TempDirFailed))
          else Success(Prepared(Converted(raw.storages), read.event, dest, env.tempDir.value))
  }

  /**
   * What the steps before the download can end in: only the event can panic
   * this early, no early return reports a download or a completed run, and
   * a run that gets through has read its event, selected at least one
   * output and made its directory.
   */
  lemma PrepareOutcomes(env: Environment)
    ensures var r := Prepare(env);
      && (r.Failure? && r.error.Returned? ==> r.error.exit != NotDownloaded && r.error.exit != Completed)
      && (r.Failure? && r.error.Panicked? ==> r.error.site.EventPanic?)
      && (r.Success? ==>
            && Events.ReadEvent(env.request) == Events.Read(r.value.event)
            && r.value.dest != map[]
            && env.tempDir == Some(r.value.dir))
  {
  }

  /** The orders fit the run: each enumerates the keys of the map it stands for. */
  ghost predicate OrdersFit(env: Environment, sourceOrder: seq<string>, uploadOrder: seq<string>) {
    Prepare(env).Success? ==>
      && Enumerates(sourceOrder, Prepare(env).value.providers.Keys)
      && Enumerates(uploadOrder, Prepare(env).value.dest.Keys)
  }

  /** A provider the object may be downloaded from: its type is the event's source. */
  predicate Candidate(p: Prepared, name: string) {
    name in p.providers && p.providers[name].providerType == p.event.eventSource
  }

  /** The download loop is still looking: nothing downloaded and no panic. */
  predicate Searching(st: State) {
    st.halt.None? && st.fileName == ""
  }

  /** One iteration of the download loop. */
  function SearchStep(p: Prepared, io: string -> Minio.DownloadIo, st: State, name: string): State {
    if !Candidate(p, name) then st
    else
      var client := ClientFactory.GetClient(p.providers[name]);
      var st1 := st.(clients := st.clients[name := client]);
      if client.None? then st1.(halt := Some(NilSourceClient(name)))
      else
        var r := Minio.Download(client.value, p.dir, p.event.path, io(name));
        if r.DownloadPanics? then st1.(halt := Some(SourcePathPanic(name)))
        else st1.(fileName := r.fileName,
                  calls := st1.calls + [DownloadCall(name, client.value, p.dir, p.event.path, r.err)])
  }

  /** The download loop over `order`, from state `st`. */
  function SearchFrom(p: Prepared, io: string -> Minio.DownloadIo, st: State, order: seq<string>): State
    decreases |order|
  {
    if !Searching(st) || order == [] then st
    else SearchFrom(p, io, SearchStep(p, io, st, order[0]), order[1..])
  }

  /** The loop that looks a destination's provider up by name, from the client `client`. */
  function LookupFrom(providers: map<string, StorageProvider>, order: seq<string>, name: string,
                      client: ClientFactory.StorageClient, clients: map<string, ClientFactory.StorageClient>)
    : (ClientFactory.StorageClient, map<string, ClientFactory.StorageClient>)
    decreases |order|
  {
    if order == [] then (client, clients)
    else if order[0] in providers && providers[order[0]].name == name then
      var c := ClientFactory.GetClient(providers[order[0]]);
      LookupFrom(providers, order[1..], name, c, clients[providers[order[0]].name := c])
    else LookupFrom(providers, order[1..], name, client, clients)
  }

  /** The upload path of a destination: its configured path and the downloaded file's base name. */
  function UploadPath(p: Prepared, name: string, fileName: string): string
    requires name in p.dest
  {
    p.dest[name] + "/" + Minio.Base(fileName)
  }

  /** The client of a destination: the one already made for it, or the one the lookup loop makes. */
  function ClientFor(p: Prepared, sourceOrder: seq<string>, clients: map<string, ClientFactory.StorageClient>, name: string)
    : (ClientFactory.StorageClient, map<string, ClientFactory.StorageClient>)
  {
    if name in clients then (clients[name], clients)
    else LookupFrom(p.providers, sourceOrder, name, None, clients)
  }

  /** One iteration of the upload loop. */
  function UploadStep(p: Prepared, io: string -> Minio.UploadIo, sourceOrder: seq<string>, st: State, name: string): State
    requires name in p.dest
  {
    var found := ClientFor(p, sourceOrder, st.clients, name);
    var client := found.0;
    var st1 := st.(clients := found.1);
    var path := UploadPath(p, name, st.fileName);
    if client.None? then st1.(halt := Some(NilUploadClient(name)))
    else
      var r := Minio.Upload(client.value, st.fileName, path, io(name));
      if r.UploadPanics? then st1.(halt := Some(UploadPathPanic(name)))
      else st1.(calls := st1.calls + [UploadCall(name, client.value, st.fileName, path, r.err)])
  }

  /** The upload loop over `order`, from state `st`. */
  function UploadFrom(p: Prepared, io: string -> Minio.UploadIo, sourceOrder: seq<string>, st: State, order: seq<string>): State
    requires forall i :: 0 <= i < |order| ==> order[i] in p.dest
    decreases |order|
  {
    if st.halt.Some? || order == [] then st
    else UploadFrom(p, io, sourceOrder, UploadStep(p, io, sourceOrder, st, order[0]), order[1..])
  }

  /** The outcome of a run and the calls it makes. */
  function Expected(env: Environment, sourceOrder: seq<string>, uploadOrder: seq<string>): (Outcome, seq<Call>)
    requires OrdersFit(env, sourceOrder, uploadOrder)
  {
    var prep := Prepare(env);
    if prep.Failure? then (prep.error, [])
    else
      var p := prep.value;
      var s := SearchFrom(p, env.downloadIo, Start, sourceOrder);
      if s.halt.Some? then (Panicked(s.halt.value), s.calls)
      else if s.fileName == "" then (Returned(NotDownloaded), s.calls)
      else
        var u := UploadFrom(p, env.uploadIo, sourceOrder, s, uploadOrder);
        if u.halt.Some? then (Panicked(u.halt.value), u.calls)
        else (Returned(Completed), u.calls)
  }

  // ---------------------------------------------------------------------
  // The download loop
  // ---------------------------------------------------------------------

  /** The providers a list of calls went to, in order. */
  function Providers(calls: seq<Call>): seq<string> {
    seq(|calls|, i requires 0 <= i < |calls| => calls[i].provider)
  }

  /** The candidates of `order`, in order. */
  function Candidates(p: Prepared, order: seq<string>): (c: seq<string>)
    ensures forall i :: 0 <= i < |c| ==> Candidate(p, c[i]) && c[i] in order
    ensures forall n :: n in order && Candidate(p, n) ==> n in c
    decreases |order|
  {
    if order == [] then []
    else (if Candidate(p, order[0]) then [order[0]] else []) + Candidates(p, order[1..])
  }

  /**
   * The candidates keep the order in which `order` lists them: the
   * candidates of a concatenation are those of each part, in turn.
   */
  lemma {:induction false} CandidatesAppend(p: Prepared, a: seq<string>, b: seq<string>)
    ensures Candidates(p, a + b) == Candidates(p, a) + Candidates(p, b)
    decreases |a|
  {
    if a != [] {
      assert (a + b)[1..] == a[1..] + b;
      CandidatesAppend(p, a[1..], b);
    } else {
      assert a + b == b;
    }
  }

  /** `c` is a download of the event's path into the temporary directory from provider `name`, with its client. */
  ghost predicate DownloadTo(p: Prepared, name: string, c: Call) {
    && c.DownloadCall? && c.provider == name && c.directory == p.dir && c.path == p.event.path
    && name in p.providers && ClientFactory.GetClient(p.providers[name]) == Some(c.client)
  }

  /**
   * `added` are the calls of a download search over `order`: downloads from
   * the first candidates, in order, all but perhaps the last failed.
   */
  ghost predicate DownloadRun(p: Prepared, order: seq<string>, added: seq<Call>) {
    && |added| <= |Candidates(p, order)|
    && (forall i :: 0 <= i < |added| ==> DownloadTo(p, Candidates(p, order)[i], added[i]))
    && (forall i :: 0 <= i < |added| - 1 ==> added[i].downloadError.Some?)
  }

  /** A download that returned no error. */
  predicate Succeeded(c: Call) {
    c.DownloadCall? && c.downloadError.None?
  }

  /** The downloaded file: the base name of the event's path, in the temporary directory. */
  function LocalFile(p: Prepared): string {
    p.dir + "/" + Minio.Base(p.event.path)
  }

  lemma SplitAt<T>(s: seq<T>, k: nat)
    requires k < |s|
    ensures s[k..] == [s[k]] + s[k + 1..]
  {
  }

  /** The three ways one iteration of the download loop goes: skip, panic, or one download. */
  lemma SearchStepCases(p: Prepared, io: string -> Minio.DownloadIo, st: State, name: string)
    requires Searching(st)
    ensures !Candidate(p, name) ==> SearchStep(p, io, st, name) == st
    ensures Candidate(p, name) && SearchStep(p, io, st, name).halt.Some? ==>
      var n := SearchStep(p, io, st, name);
      && n.calls == st.calls && n.fileName == ""
      && (n.halt == Some(NilSourceClient(name)) || n.halt == Some(SourcePathPanic(name)))
    ensures Candidate(p, name) && SearchStep(p, io, st, name).halt.None? ==>
      var n := SearchStep(p, io, st, name);
      && |n.calls| == |st.calls| + 1 && n.calls == st.calls + [n.calls[|st.calls|]]
      && DownloadTo(p, name, n.calls[|st.calls|])
      && (n.fileName != "" <==> n.calls[|st.calls|].downloadError.None?)
      && (n.fileName != "" ==> n.fileName == LocalFile(p))
  {
  }

  lemma DownloadRunSkip(p: Prepared, order: seq<string>, added: seq<Call>)
    requires order != [] && !Candidate(p, order[0])
    requires DownloadRun(p, order[1..], added)
    ensures DownloadRun(p, order, added)
  {
    assert Candidates(p, order) == Candidates(p, order[1..]);
  }

  lemma DownloadRunCons(p: Prepared, order: seq<string>, call: Call, added: seq<Call>)
    requires order != [] && Candidate(p, order[0])
    requires DownloadTo(p, order[0], call) && DownloadRun(p, order[1..], added)
    requires added != [] ==> call.downloadError.Some?
    ensures DownloadRun(p, order, [call] + added)
  {
    var c, c' := Candidates(p, order), Candidates(p, order[1..]);
    assert c == [order[0]] + c';
    forall i | 0 <= i < |[call] + added| ensures DownloadTo(p, c[i], ([call] + added)[i]) {
      if i > 0 {
        assert c[i] == c'[i - 1] && ([call] + added)[i] == added[i - 1];
      }
    }
  }

  /** A failed download from the first candidate followed by a run over the rest is a run over the whole order. */
  lemma SearchCallsCons(p: Prepared, order: seq<string>, before: seq<Call>, call: Call, after: seq<Call>)
    requires order != [] && Candidate(p, order[0])
    requires DownloadTo(p, order[0], call) && call.downloadError.Some?
    requires |before + [call]| <= |after| && after[..|before + [call]|] == before + [call]
    requires DownloadRun(p, order[1..], after[|before + [call]|..])
    ensures |before| <= |after| && after[..|before|] == before
    ensures DownloadRun(p, order, after[|before|..])
  {
    var k := |before|;
    assert after[..k] == after[..k + 1][..k];
    assert after[k] == after[..k + 1][k];
    SplitAt(after, k);
    DownloadRunCons(p, order, call, after[k + 1..]);
  }

  /**
   * The download loop only appends calls, and those it appends are
   * downloads from the first candidates, in order, all but perhaps the last
   * failed.
   */
  lemma {:induction false} SearchCalls(p: Prepared, io: string -> Minio.DownloadIo, st: State, order: seq<string>)
    requires Searching(st)
    ensures var r := SearchFrom(p, io, st, order);
      && |st.calls| <= |r.calls| && r.calls[..|st.calls|] == st.calls
      && DownloadRun(p, order, r.calls[|st.calls|..])
    decreases |order|
  {
    var r := SearchFrom(p, io, st, order);
    var k := |st.calls|;
    if order == [] {
      assert r.calls[k..] == [];
    } else {
      var name, rest := order[0], order[1..];
      var next := SearchStep(p, io, st, name);
      SearchStepCases(p, io, st, name);
      assert r == SearchFrom(p, io, next, rest);
      if !Candidate(p, name) {
        SearchCalls(p, io, st, rest);
        DownloadRunSkip(p, order, r.calls[k..]);
      } else if next.halt.Some? {
        assert r.calls[k..] == [];
      } else if !Searching(next) {
        var call := next.calls[k];
        assert r.calls[k..] == [call] + [];
        DownloadRunCons(p, order, call, []);
      } else {
        SearchCalls(p, io, next, rest);
        SearchCallsCons(p, order, st.calls, next.calls[k], r.calls);
      }
    }
  }

  /**
   * How a download search over `order` from `st` ended in `r`: with a file
   * exactly when the last download succeeded; with neither file nor panic
   * only after trying every candidate; with a panic at the candidate after
   * the last one tried.
   */
  ghost predicate SearchEnded(p: Prepared, order: seq<string>, st: State, r: State) {
    && |st.calls| <= |r.calls|
    && (r.fileName != "" <==> r.halt.None? && |r.calls| > |st.calls| && Succeeded(r.calls[|r.calls| - 1]))
    && (r.fileName != "" ==> r.fileName == LocalFile(p))
    && (Searching(r) ==> |r.calls| - |st.calls| == |Candidates(p, order)|)
    && (r.halt.Some? ==>
          && |r.calls| - |st.calls| < |Candidates(p, order)|
          && var c := Candidates(p, order)[|r.calls| - |st.calls|];
             r.halt.value == NilSourceClient(c) || r.halt.value == SourcePathPanic(c))
  }

  lemma SearchEndedSkip(p: Prepared, order: seq<string>, st: State, r: State)
    requires order != [] && !Candidate(p, order[0])
    requires SearchEnded(p, order[1..], st, r)
    ensures SearchEnded(p, order, st, r)
  {
    assert Candidates(p, order) == Candidates(p, order[1..]);
  }

  lemma SearchEndedStop(p: Prepared, order: seq<string>, st: State, r: State)
    requires order != [] && Candidate(p, order[0])
    requires r.halt.Some? ==>
      && r.calls == st.calls && r.fileName == ""
      && (r.halt == Some(NilSourceClient(order[0])) || r.halt == Some(SourcePathPanic(order[0])))
    requires r.halt.None? ==>
      && |r.calls| == |st.calls| + 1 && r.calls == st.calls + [r.calls[|st.calls|]] && r.fileName != ""
      && DownloadTo(p, order[0], r.calls[|st.calls|])
      && r.calls[|st.calls|].downloadError.None? && r.fileName == LocalFile(p)
    ensures SearchEnded(p, order, st, r)
  {
    assert Candidates(p, order) == [order[0]] + Candidates(p, order[1..]);
  }

  lemma SearchEndedCons(p: Prepared, order: seq<string>, st: State, next: State, r: State)
    requires order != [] && Candidate(p, order[0])
    requires |next.calls| == |st.calls| + 1 && !Succeeded(next.calls[|st.calls|])
    requires |next.calls| <= |r.calls| && r.calls[..|next.calls|] == next.calls
    requires SearchEnded(p, order[1..], next, r)
    ensures SearchEnded(p, order, st, r)
  {
    var k := |st.calls|;
    assert r.calls[k] == r.calls[..k + 1][k];
    assert Candidates(p, order) == [order[0]] + Candidates(p, order[1..]);
    if r.halt.Some? {
      var d := |r.calls| - k;
      assert Candidates(p, order)[d] == Candidates(p, order[1..])[d - 1];
    }
  }

  /** How the download loop ends. */
  lemma {:induction false} SearchEnd(p: Prepared, io: string -> Minio.DownloadIo, st: State, order: seq<string>)
    requires Searching(st)
    ensures SearchEnded(p, order, st, SearchFrom(p, io, st, order))
    decreases |order|
  {
    var r := SearchFrom(p, io, st, order);
    if order != [] {
      var name, rest := order[0], order[1..];
      var next := SearchStep(p, io, st, name);
      SearchStepCases(p, io, st, name);
      assert r == SearchFrom(p, io, next, rest);
      if !Candidate(p, name) {
        SearchEnd(p, io, st, rest);
        SearchEndedSkip(p, order, st, r);
      } else if !Searching(next) {
        SearchEndedStop(p, order, st, r);
      } else {
        SearchEnd(p, io, next, rest);
        SearchCalls(p, io, next, rest);
        SearchEndedCons(p, order, st, next, r);
      }
    }
  }

  /** The clients a run has made so far are those `GetClient` makes for their providers. */
  ghost predicate ClientsAgree(p: Prepared, clients: map<string, ClientFactory.StorageClient>) {
    forall n :: n in clients ==> n in p.providers && clients[n] == ClientFactory.GetClient(p.providers[n])
  }

  /** The download loop only records the clients of the providers it tries. */
  lemma {:induction false} SearchKeepsClients(p: Prepared, io: string -> Minio.DownloadIo, st: State, order: seq<string>)
    requires ClientsAgree(p, st.clients)
    ensures ClientsAgree(p, SearchFrom(p, io, st, order).clients)
    decreases |order|
  {
    if Searching(st) && order != [] {
      SearchKeepsClients(p, io, SearchStep(p, io, st, order[0]), order[1..]);
    }
  }

  // ---------------------------------------------------------------------
  // The lookup and upload loops
  // ---------------------------------------------------------------------

  /** After `ConvertStorages` every provider is stored under its own name. */
  ghost predicate KeysAreNames(providers: map<string, StorageProvider>) {
    forall n :: n in providers ==> providers[n].name == n
  }

  /**
   * With providers stored under their names, the lookup loop finds the
   * provider stored under `name` wherever `order` lists it, and records its
   * client.
   */
  lemma {:induction false} LookupFinds(providers: map<string, StorageProvider>, order: seq<string>, name: string,
                                       client: ClientFactory.StorageClient, clients: map<string, ClientFactory.StorageClient>)
    requires KeysAreNames(providers)
    ensures var r := LookupFrom(providers, order, name, client, clients);
      && r.0 == (if name in order && name in providers then ClientFactory.GetClient(providers[name]) else client)
      && r.1 == (if name in order && name in providers then clients[name := ClientFactory.GetClient(providers[name])] else clients)
    decreases |order|
  {
    if order != [] {
      if order[0] in providers && providers[order[0]].name == name {
        var c := ClientFactory.GetClient(providers[order[0]]);
        LookupFinds(providers, order[1..], name, c, clients[name := c]);
      } else {
        LookupFinds(providers, order[1..], name, client, clients);
      }
    }
  }

  /** The client a destination gets does not depend on the order the lookup loop visits the providers in. */
  lemma LookupIgnoresOrder(providers: map<string, StorageProvider>, order1: seq<string>, order2: seq<string>, name: string,
                           clients: map<string, ClientFactory.StorageClient>)
    requires KeysAreNames(providers)
    requires forall n :: n in providers ==> n in order1 && n in order2
    ensures LookupFrom(providers, order1, name, None, clients) == LookupFrom(providers, order2, name, None, clients)
    ensures LookupFrom(providers, order1, name, None, clients).0 ==
            if name in providers then ClientFactory.GetClient(providers[name]) else None
  {
    LookupFinds(providers, order1, name, None, clients);
    LookupFinds(providers, order2, name, None, clients);
  }

  /** `c` uploads `file` to the path of destination `name`, with that provider's client. */
  ghost predicate UploadTo(p: Prepared, name: string, file: string, c: Call) {
    && name in p.dest && name in p.providers
    && c.UploadCall? && c.provider == name && c.file == file && c.path == UploadPath(p, name, file)
    && ClientFactory.GetClient(p.providers[name]) == Some(c.client)
  }

  /** `added` are the calls of an upload loop over `order`: one upload of `file` to each destination in order. */
  ghost predicate UploadRun(p: Prepared, order: seq<string>, file: string, added: seq<Call>) {
    && |added| <= |order|
    && forall i :: 0 <= i < |added| ==> UploadTo(p, order[i], file, added[i])
  }

  /** Why the upload loop stops at destination `name`: it has no client, or its path has no key. */
  ghost predicate UploadHalt(p: Prepared, name: string, file: string, site: PanicSite) {
    || (site == NilUploadClient(name) && (name !in p.providers || ClientFactory.GetClient(p.providers[name]).None?))
    || (site == UploadPathPanic(name) && name in p.dest && Minio.SplitBucketKey(UploadPath(p, name, file)).None?)
  }

  /** The preconditions of the upload loop that the rest of the run guarantees. */
  ghost predicate UploadReady(p: Prepared, sourceOrder: seq<string>, st: State) {
    && st.halt.None?
    && KeysAreNames(p.providers) && ClientsAgree(p, st.clients)
    && (forall n :: n in p.providers ==> n in sourceOrder)
  }

  /** Every destination gets the client `GetClient` makes for the provider of that name, or none. */
  lemma ClientForAgrees(p: Prepared, sourceOrder: seq<string>, clients: map<string, ClientFactory.StorageClient>, name: string)
    requires KeysAreNames(p.providers) && ClientsAgree(p, clients)
    requires forall n :: n in p.providers ==> n in sourceOrder
    ensures var r := ClientFor(p, sourceOrder, clients, name);
      && r.0 == (if name in p.providers then ClientFactory.GetClient(p.providers[name]) else None)
      && ClientsAgree(p, r.1)
  {
    if name !in clients {
      LookupFinds(p.providers, sourceOrder, name, None, clients);
    }
  }

  /** One iteration of the upload loop keeps the file and the clients right. */
  lemma UploadStepKeeps(p: Prepared, io: string -> Minio.UploadIo, sourceOrder: seq<string>, st: State, name: string)
    requires name in p.dest && UploadReady(p, sourceOrder, st)
    ensures var n := UploadStep(p, io, sourceOrder, st, name);
      && n.fileName == st.fileName && ClientsAgree(p, n.clients)
      && (n.halt.None? ==> UploadReady(p, sourceOrder, n))
  {
    ClientForAgrees(p, sourceOrder, st.clients, name);
  }

  /** One iteration of the upload loop that panics makes no call. */
  lemma UploadStepHalts(p: Prepared, io: string -> Minio.UploadIo, sourceOrder: seq<string>, st: State, name: string)
    requires name in p.dest && UploadReady(p, sourceOrder, st)
    requires UploadStep(p, io, sourceOrder, st, name).halt.Some?
    ensures var n := UploadStep(p, io, sourceOrder, st, name);
      n.calls == st.calls && UploadHalt(p, name, st.fileName, n.halt.value)
  {
    ClientForAgrees(p, sourceOrder, st.clients, name);
  }

  /** One iteration of the upload loop that does not panic makes one upload. */
  lemma UploadStepCalls(p: Prepared, io: string -> Minio.UploadIo, sourceOrder: seq<string>, st: State, name: string)
    requires name in p.dest && UploadReady(p, sourceOrder, st)
    requires UploadStep(p, io, sourceOrder, st, name).halt.None?
    ensures var n := UploadStep(p, io, sourceOrder, st, name);
      && |n.calls| == |st.calls| + 1 && n.calls == st.calls + [n.calls[|st.calls|]]
      && UploadTo(p, name, st.fileName, n.calls[|st.calls|])
  {
    ClientForAgrees(p, sourceOrder, st.clients, name);
  }

  /** How an upload loop over `order` from `st` ended in `r`. */
  ghost predicate UploadEnded(p: Prepared, order: seq<string>, st: State, r: State) {
    && |st.calls| <= |r.calls| && r.calls[..|st.calls|] == st.calls
    && r.fileName == st.fileName
    && UploadRun(p, order, st.fileName, r.calls[|st.calls|..])
    && (r.halt.None? <==> |r.calls| - |st.calls| == |order|)
    && (r.halt.Some? ==>
          && |r.calls| - |st.calls| < |order|
          && UploadHalt(p, order[|r.calls| - |st.calls|], st.fileName, r.halt.value))
  }

  /** Calls `next` adds one call to `st`; `r` extends `next`; so `r` extends `st` by that call and the rest. */
  lemma CallsCons(st: seq<Call>, next: seq<Call>, r: seq<Call>)
    requires |next| == |st| + 1 && next == st + [next[|st|]]
    requires |next| <= |r| && r[..|next|] == next
    ensures |st| <= |r| && r[..|st|] == st
    ensures r[|st|..] == [next[|st|]] + r[|next|..]
  {
    var k := |st|;
    assert r[..k] == r[..k + 1][..k];
    assert r[k] == r[..k + 1][k];
    SplitAt(r, k);
  }

  lemma UploadEndedCons(p: Prepared, order: seq<string>, st: State, next: State, r: State)
    requires order != []
    requires |next.calls| == |st.calls| + 1 && next.calls == st.calls + [next.calls[|st.calls|]]
    requires UploadTo(p, order[0], st.fileName, next.calls[|st.calls|]) && next.fileName == st.fileName
    requires UploadEnded(p, order[1..], next, r)
    ensures UploadEnded(p, order, st, r)
  {
    UploadRunExtends(p, order, st, next, r);
    if r.halt.Some? {
      UploadHaltShift(p, order, st.fileName, |r.calls| - |st.calls|, r.halt.value);
    }
  }

  /** The calls half of `UploadEndedCons`. */
  lemma UploadRunExtends(p: Prepared, order: seq<string>, st: State, next: State, r: State)
    requires order != []
    requires |next.calls| == |st.calls| + 1 && next.calls == st.calls + [next.calls[|st.calls|]]
    requires UploadTo(p, order[0], st.fileName, next.calls[|st.calls|]) && next.fileName == st.fileName
    requires |next.calls| <= |r.calls| && r.calls[..|next.calls|] == next.calls
    requires UploadRun(p, order[1..], next.fileName, r.calls[|next.calls|..])
    ensures |st.calls| <= |r.calls| && r.calls[..|st.calls|] == st.calls
    ensures UploadRun(p, order, st.fileName, r.calls[|st.calls|..])
  {
    var k := |st.calls|;
    CallsCons(st.calls, next.calls, r.calls);
    UploadRunCons(p, order, st.fileName, next.calls[k], r.calls[k + 1..]);
  }

  lemma UploadHaltShift(p: Prepared, order: seq<string>, file: string, d: nat, site: PanicSite)
    requires 0 < d < |order| && UploadHalt(p, order[1..][d - 1], file, site)
    ensures UploadHalt(p, order[d], file, site)
  {
    assert order[1..][d - 1] == order[d];
  }

  lemma UploadRunCons(p: Prepared, order: seq<string>, file: string, call: Call, added: seq<Call>)
    requires order != [] && UploadTo(p, order[0], file, call) && UploadRun(p, order[1..], file, added)
    ensures UploadRun(p, order, file, [call] + added)
  {
    forall i | 0 <= i < |[call] + added| ensures UploadTo(p, order[i], file, ([call] + added)[i]) {
      if i > 0 {
        assert ([call] + added)[i] == added[i - 1] && order[i] == order[1..][i - 1];
      }
    }
  }

  /**
   * The upload loop uploads to each destination in order, whatever the
   * earlier uploads returned, and stops only at a destination without a
   * client or with a path that has no key.
   */
  lemma {:induction false} UploadShape(p: Prepared, io: string -> Minio.UploadIo, sourceOrder: seq<string>, st: State, order: seq<string>)
    requires forall i :: 0 <= i < |order| ==> order[i] in p.dest
    requires UploadReady(p, sourceOrder, st)
    ensures UploadEnded(p, order, st, UploadFrom(p, io, sourceOrder, st, order))
    decreases |order|, 1
  {
    if order == [] {
      assert st.calls[|st.calls|..] == [];
    } else if UploadStep(p, io, sourceOrder, st, order[0]).halt.Some? {
      UploadShapeHalt(p, io, sourceOrder, st, order);
    } else {
      UploadShapeCall(p, io, sourceOrder, st, order);
    }
  }

  /** The upload loop stopped by its first destination. */
  lemma UploadShapeHalt(p: Prepared, io: string -> Minio.UploadIo, sourceOrder: seq<string>, st: State, order: seq<string>)
    requires order != [] && forall i :: 0 <= i < |order| ==> order[i] in p.dest
    requires UploadReady(p, sourceOrder, st)
    requires UploadStep(p, io, sourceOrder, st, order[0]).halt.Some?
    ensures UploadEnded(p, order, st, UploadFrom(p, io, sourceOrder, st, order))
  {
    var next := UploadStep(p, io, sourceOrder, st, order[0]);
    UploadStepKeeps(p, io, sourceOrder, st, order[0]);
    UploadStepHalts(p, io, sourceOrder, st, order[0]);
    assert UploadFrom(p, io, sourceOrder, st, order) == next;
    UploadEndedAtHalt(p, order, st, next);
  }

  /** An upload loop that halts at its first destination, before any call, ended as `UploadEnded` says. */
  lemma UploadEndedAtHalt(p: Prepared, order: seq<string>, st: State, r: State)
    requires order != [] && r.calls == st.calls && r.fileName == st.fileName
    requires r.halt.Some? && UploadHalt(p, order[0], st.fileName, r.halt.value)
    ensures UploadEnded(p, order, st, r)
  {
    assert r.calls[|st.calls|..] == [];
  }

  /** The upload loop past a first destination that took the file. */
  lemma {:induction false} UploadShapeCall(p: Prepared, io: string -> Minio.UploadIo, sourceOrder: seq<string>, st: State, order: seq<string>)
    requires order != [] && forall i :: 0 <= i < |order| ==> order[i] in p.dest
    requires UploadReady(p, sourceOrder, st)
    requires UploadStep(p, io, sourceOrder, st, order[0]).halt.None?
    ensures UploadEnded(p, order, st, UploadFrom(p, io, sourceOrder, st, order))
    decreases |order|, 0
  {
    var next := UploadStep(p, io, sourceOrder, st, order[0]);
    UploadStepKeeps(p, io, sourceOrder, st, order[0]);
    UploadStepCalls(p, io, sourceOrder, st, order[0]);
    var r := UploadFrom(p, io, sourceOrder, next, order[1..]);
    assert UploadFrom(p, io, sourceOrder, st, order) == r;
    UploadShape(p, io, sourceOrder, next, order[1..]);
    UploadEndedCons(p, order, st, next, r);
  }

  // ---------------------------------------------------------------------
  // Properties of a run
  // ---------------------------------------------------------------------

  /** Converted configurations store every provider under its own name. */
  lemma PreparedKeysAreNames(env: Environment)
    requires Prepare(env).Success?
    ensures KeysAreNames(Prepare(env).value.providers)
  {
    var raw := env.secrets[ConfigPath(env.configFileVar)].decoded.value;
    assert Prepare(env).value.providers == Converted(raw.storages);
    forall n | n in Converted(raw.storages) ensures Converted(raw.storages)[n].name == n {
      ConvertedIsWinner(raw.storages, n);
      WinnerCopiesEntry(raw.storages, n);
    }
  }

  /** The download search of a prepared run, and where it ended. */
  lemma SearchOfRun(p: Prepared, io: string -> Minio.DownloadIo, sourceOrder: seq<string>)
    ensures var s := SearchFrom(p, io, Start, sourceOrder);
      && DownloadRun(p, sourceOrder, s.calls)
      && SearchEnded(p, sourceOrder, Start, s)
      && ClientsAgree(p, s.clients)
  {
    var s := SearchFrom(p, io, Start, sourceOrder);
    SearchCalls(p, io, Start, sourceOrder);
    SearchEnd(p, io, Start, sourceOrder);
    SearchKeepsClients(p, io, Start, sourceOrder);
    assert s.calls[|Start.calls|..] == s.calls;
  }

  /**
   * Every run makes its download calls first and its upload calls after
   * them, and uploads only after a successful download: the calls are a
   * download search over the providers, followed, when the last download
   * succeeded, by uploads of the downloaded file to the destinations in order.
   */
  lemma RunShape(env: Environment, sourceOrder: seq<string>, uploadOrder: seq<string>)
    requires OrdersFit(env, sourceOrder, uploadOrder)
    requires Prepare(env).Success?
    ensures var p, calls := Prepare(env).value, Expected(env, sourceOrder, uploadOrder).1;
      exists k :: && 0 <= k <= |calls|
                  && DownloadRun(p, sourceOrder, calls[..k])
                  && (k < |calls| ==> 0 < k && Succeeded(calls[k - 1]))
                  && UploadRun(p, uploadOrder, LocalFile(p), calls[k..])
  {
    var p := Prepare(env).value;
    var s := SearchFrom(p, env.downloadIo, Start, sourceOrder);
    SearchOfRun(p, env.downloadIo, sourceOrder);
    var calls := Expected(env, sourceOrder, uploadOrder).1;
    var k := |s.calls|;
    if s.halt.None? && s.fileName != "" {
      PreparedKeysAreNames(env);
      UploadShape(p, env.uploadIo, sourceOrder, s, uploadOrder);
      assert calls[..k] == s.calls;
    } else {
      assert calls[..k] == s.calls && calls[k..] == [];
    }
  }

  /**
   * A run that completes has downloaded the object once and uploaded it
   * once to every destination, in the upload order, to the destination's
   * path followed by the object's base name, with the destination
   * provider's own client; so every destination names a MinIO provider.
   */
  lemma CompletedRun(env: Environment, sourceOrder: seq<string>, uploadOrder: seq<string>)
    requires OrdersFit(env, sourceOrder, uploadOrder)
    requires Expected(env, sourceOrder, uploadOrder).0 == Returned(Completed)
    ensures Prepare(env).Success?
    ensures var p, calls := Prepare(env).value, Expected(env, sourceOrder, uploadOrder).1;
      && (exists k :: && 0 < k <= |calls|
                      && DownloadRun(p, sourceOrder, calls[..k])
                      && Succeeded(calls[k - 1])
                      && Providers(calls[k..]) == uploadOrder
                      && UploadRun(p, uploadOrder, LocalFile(p), calls[k..]))
      && (forall n :: n in p.dest ==> n in p.providers && ClientFactory.GetClient(p.providers[n]).Some?)
  {
    var p := Prepare(env).value;
    var s := SearchFrom(p, env.downloadIo, Start, sourceOrder);
    SearchOfRun(p, env.downloadIo, sourceOrder);
    PreparedKeysAreNames(env);
    var u := UploadFrom(p, env.uploadIo, sourceOrder, s, uploadOrder);
    assert s.halt.None? && s.fileName != "" && u.halt.None?;
    assert Expected(env, sourceOrder, uploadOrder).1 == u.calls;
    UploadShape(p, env.uploadIo, sourceOrder, s, uploadOrder);
    UploadedEverywhere(p, uploadOrder, s, u);
    var k := |s.calls|;
    assert DownloadRun(p, sourceOrder, u.calls[..k]);
  }

  /** A search that found the file, followed by an upload loop that did not panic, uploaded to every destination. */
  lemma UploadedEverywhere(p: Prepared, order: seq<string>, s: State, u: State)
    requires forall n :: n in p.dest ==> n in order
    requires s.halt.None? && s.fileName == LocalFile(p)
    requires |s.calls| > 0 && Succeeded(s.calls[|s.calls| - 1])
    requires UploadEnded(p, order, s, u) && u.halt.None?
    ensures var k := |s.calls|;
      && 0 < k <= |u.calls| && u.calls[..k] == s.calls && Succeeded(u.calls[k - 1])
      && Providers(u.calls[k..]) == order
      && UploadRun(p, order, LocalFile(p), u.calls[k..])
    ensures forall n :: n in p.dest ==> n in p.providers && ClientFactory.GetClient(p.providers[n]).Some?
  {
    var k := |s.calls|;
    assert u.calls[k - 1] == u.calls[..k][k - 1];
    UploadRunProviders(p, order, LocalFile(p), u.calls[k..]);
    UploadRunClients(p, order, LocalFile(p), u.calls[k..]);
  }

  /** A full upload run goes to the destinations in order. */
  lemma UploadRunProviders(p: Prepared, order: seq<string>, file: string, ups: seq<Call>)
    requires UploadRun(p, order, file, ups) && |ups| == |order|
    ensures Providers(ups) == order
  {
    assert forall i :: 0 <= i < |ups| ==> UploadTo(p, order[i], file, ups[i]);
  }

  /** A full upload run found a client for every destination it lists. */
  lemma UploadRunClients(p: Prepared, order: seq<string>, file: string, ups: seq<Call>)
    requires UploadRun(p, order, file, ups) && |ups| == |order|
    ensures forall n :: n in order ==> n in p.providers && ClientFactory.GetClient(p.providers[n]).Some?
  {
    forall n | n in order ensures n in p.providers && ClientFactory.GetClient(p.providers[n]).Some? {
      var i :| 0 <= i < |order| && order[i] == n;
      assert UploadTo(p, n, file, ups[i]);
    }
  }

  /**
   * A run that ends without a file has tried every provider of the event's
   * source, in order, and every download failed.
   */
  lemma NotDownloadedRun(env: Environment, sourceOrder: seq<string>, uploadOrder: seq<string>)
    requires OrdersFit(env, sourceOrder, uploadOrder)
    requires Expected(env, sourceOrder, uploadOrder).0 == Returned(NotDownloaded)
    ensures Prepare(env).Success?
    ensures var p, calls := Prepare(env).value, Expected(env, sourceOrder, uploadOrder).1;
      && DownloadRun(p, sourceOrder, calls)
      && Providers(calls) == Candidates(p, sourceOrder)
      && (forall i :: 0 <= i < |calls| ==> calls[i].downloadError.Some?)
  {
    var p := Prepare(env).value;
    var s := SearchFrom(p, env.downloadIo, Start, sourceOrder);
    SearchOfRun(p, env.downloadIo, sourceOrder);
    assert s.halt.None? && s.fileName == "";
    assert Expected(env, sourceOrder, uploadOrder).1 == s.calls;
    FailedEverywhere(p, sourceOrder, s);
  }

  /** A search that ended without a panic and without a file tried every candidate, and every try failed. */
  lemma FailedEverywhere(p: Prepared, order: seq<string>, r: State)
    requires DownloadRun(p, order, r.calls) && SearchEnded(p, order, Start, r)
    requires r.halt.None? && r.fileName == ""
    ensures Providers(r.calls) == Candidates(p, order)
    ensures forall i :: 0 <= i < |r.calls| ==> r.calls[i].downloadError.Some?
  {
    assert Searching(r);
    DownloadRunProviders(p, order, r.calls);
    if r.calls != [] {
      LastDownloadFailed(p, order, r.calls);
    }
  }

  /** A download run over every candidate goes to the candidates in order. */
  lemma DownloadRunProviders(p: Prepared, order: seq<string>, added: seq<Call>)
    requires DownloadRun(p, order, added) && |added| == |Candidates(p, order)|
    ensures Providers(added) == Candidates(p, order)
  {
    assert forall i :: 0 <= i < |added| ==> DownloadTo(p, Candidates(p, order)[i], added[i]);
  }

  /** A download run whose last download also failed has only failed downloads. */
  lemma LastDownloadFailed(p: Prepared, order: seq<string>, added: seq<Call>)
    requires DownloadRun(p, order, added) && added != [] && !Succeeded(added[|added| - 1])
    ensures forall i :: 0 <= i < |added| ==> added[i].downloadError.Some?
  {
    assert DownloadTo(p, Candidates(p, order)[|added| - 1], added[|added| - 1]);
  }

  /**
   * A readable configuration and a valid event, but no output rule that
   * selects the object key: the run ends before the temporary directory is
   * made, and nothing is downloaded or uploaded.
   */
  lemma NoOutputSelects(env: Environment, sourceOrder: seq<string>, uploadOrder: seq<string>)
    requires OrdersFit(env, sourceOrder, uploadOrder)
    requires ConfigPath(env.configFileVar) in env.secrets
    requires env.secrets[ConfigPath(env.configFileVar)].readOk && env.secrets[ConfigPath(env.configFileVar)].decoded.Some?
    requires Events.ReadEvent(env.request).Read?
    requires var key, outputs := Events.ReadEvent(env.request).event.objectKey,
                                 env.secrets[ConfigPath(env.configFileVar)].decoded.value.outputs;
      forall i :: 0 <= i < |outputs| ==> !Routing.Selects(key, outputs[i])
    ensures Expected(env, sourceOrder, uploadOrder) == (Returned(NoMatchingOutput), [])
  {
    Routing.NoSelectingRule(Events.ReadEvent(env.request).event.objectKey,
                            env.secrets[ConfigPath(env.configFileVar)].decoded.value.outputs);
  }

  /** With no provider of the event's source, a run downloads nothing, uploads nothing and ends without a file. */
  lemma NoSourceProvider(env: Environment, sourceOrder: seq<string>, uploadOrder: seq<string>)
    requires OrdersFit(env, sourceOrder, uploadOrder)
    requires Prepare(env).Success?
    requires forall n :: !Candidate(Prepare(env).value, n)
    ensures Expected(env, sourceOrder, uploadOrder) == (Returned(NotDownloaded), [])
  {
    var p := Prepare(env).value;
    SearchOfRun(p, env.downloadIo, sourceOrder);
    NoCandidates(p, sourceOrder);
  }

  lemma {:induction false} NoCandidates(p: Prepared, order: seq<string>)
    requires forall n :: !Candidate(p, n)
    ensures Candidates(p, order) == []
    decreases |order|
  {
    if order != [] {
      NoCandidates(p, order[1..]);
    }
  }

  /** When no candidate has a client, the search panics at the first candidate before any call. */
  lemma {:induction false} FirstCandidateNil(p: Prepared, io: string -> Minio.DownloadIo, st: State, order: seq<string>)
    requires Searching(st)
    requires Candidates(p, order) != []
    requires forall n :: Candidate(p, n) ==> ClientFactory.GetClient(p.providers[n]).None?
    ensures SearchFrom(p, io, st, order).calls == st.calls
    ensures SearchFrom(p, io, st, order).halt == Some(NilSourceClient(Candidates(p, order)[0]))
    decreases |order|
  {
    if !Candidate(p, order[0]) {
      FirstCandidateNil(p, io, st, order[1..]);
    }
  }

  /**
   * An S3 or OneData event with a provider of its source panics: providers
   * of those types get a nil client, and the download is called on it.
   */
  lemma NonMinioSourcePanics(env: Environment, sourceOrder: seq<string>, uploadOrder: seq<string>)
    requires OrdersFit(env, sourceOrder, uploadOrder)
    requires Prepare(env).Success?
    requires Prepare(env).value.event.eventSource != Events.MINIO
    requires Candidates(Prepare(env).value, sourceOrder) != []
    ensures Expected(env, sourceOrder, uploadOrder) ==
            (Panicked(NilSourceClient(Candidates(Prepare(env).value, sourceOrder)[0])), [])
  {
    var p := Prepare(env).value;
    forall n | Candidate(p, n) ensures ClientFactory.GetClient(p.providers[n]).None? {
      ClientFactory.ConfiguredTypes(p.providers[n]);
    }
    FirstCandidateNil(p, env.downloadIo, Start, sourceOrder);
  }

  /** A call with the returned error forgotten. */
  function Erase(c: Call): Call {
    if c.UploadCall? then c.(uploadError := None) else c
  }

  function Erased(calls: seq<Call>): seq<Call> {
    seq(|calls|, i requires 0 <= i < |calls| => Erase(calls[i]))
  }

  lemma ErasedAppend(a: seq<Call>, c: Call)
    ensures Erased(a + [c]) == Erased(a) + [Erase(c)]
  {
  }

  /** Two upload loops that differ only in what the uploads return stay alike. */
  lemma {:induction false} UploadIgnoresErrors(p: Prepared, io1: string -> Minio.UploadIo, io2: string -> Minio.UploadIo,
                                               sourceOrder: seq<string>, st1: State, st2: State, order: seq<string>)
    requires forall i :: 0 <= i < |order| ==> order[i] in p.dest
    requires st1.(calls := []) == st2.(calls := []) && Erased(st1.calls) == Erased(st2.calls)
    ensures var r1, r2 := UploadFrom(p, io1, sourceOrder, st1, order), UploadFrom(p, io2, sourceOrder, st2, order);
      r1.(calls := []) == r2.(calls := []) && Erased(r1.calls) == Erased(r2.calls)
    decreases |order|
  {
    if st1.halt.None? && order != [] {
      UploadStepIgnoresErrors(p, io1, io2, sourceOrder, st1, st2, order[0]);
      UploadIgnoresErrors(p, io1, io2, sourceOrder,
        UploadStep(p, io1, sourceOrder, st1, order[0]), UploadStep(p, io2, sourceOrder, st2, order[0]), order[1..]);
    }
  }

  /** One iteration of the upload loop, seen with the errors erased, does not depend on the earlier errors. */
  lemma UploadStepIgnoresErrors(p: Prepared, io1: string -> Minio.UploadIo, io2: string -> Minio.UploadIo,
                                sourceOrder: seq<string>, st1: State, st2: State, name: string)
    requires name in p.dest
    requires st1.(calls := []) == st2.(calls := []) && Erased(st1.calls) == Erased(st2.calls)
    ensures var n1, n2 := UploadStep(p, io1, sourceOrder, st1, name), UploadStep(p, io2, sourceOrder, st2, name);
      n1.(calls := []) == n2.(calls := []) && Erased(n1.calls) == Erased(n2.calls)
  {
    var n1, n2 := UploadStep(p, io1, sourceOrder, st1, name), UploadStep(p, io2, sourceOrder, st2, name);
    assert st1.clients == st2.clients && st1.fileName == st2.fileName && st1.halt == st2.halt;
    var client := ClientFor(p, sourceOrder, st1.clients, name).0;
    var path := UploadPath(p, name, st1.fileName);
    if client.Some? {
      var r1 := Minio.Upload(client.value, st1.fileName, path, io1(name));
      var r2 := Minio.Upload(client.value, st1.fileName, path, io2(name));
      if !r1.UploadPanics? {
        var c1 := UploadCall(name, client.value, st1.fileName, path, r1.err);
        var c2 := UploadCall(name, client.value, st1.fileName, path, r2.err);
        assert n1.calls == st1.calls + [c1] && n2.calls == st2.calls + [c2];
        ErasedAppend(st1.calls, c1);
        ErasedAppend(st2.calls, c2);
      }
    }
  }

  /**
   * A failed upload is logged and the loop goes on: what the uploads
   * return changes neither how a run ends nor which calls it makes.
   */
  lemma UploadFailuresTolerated(env: Environment, sourceOrder: seq<string>, uploadOrder: seq<string>,
                                uploadIo: string -> Minio.UploadIo)
    requires OrdersFit(env, sourceOrder, uploadOrder)
    ensures OrdersFit(env.(uploadIo := uploadIo), sourceOrder, uploadOrder)
    ensures Expected(env, sourceOrder, uploadOrder).0 == Expected(env.(uploadIo := uploadIo), sourceOrder, uploadOrder).0
    ensures Erased(Expected(env, sourceOrder, uploadOrder).1) == Erased(Expected(env.(uploadIo := uploadIo), sourceOrder, uploadOrder).1)
  {
    var env' := env.(uploadIo := uploadIo);
    assert Prepare(env') == Prepare(env);
    if Prepare(env).Success? {
      var p := Prepare(env).value;
      var s := SearchFrom(p, env.downloadIo, Start, sourceOrder);
      if s.halt.None? && s.fileName != "" {
        UploadIgnoresErrors(p, env.uploadIo, uploadIo, sourceOrder, s, s, uploadOrder);
      }
    }
  }

  // ---------------------------------------------------------------------
  // Handle
  // ---------------------------------------------------------------------

  /** The download loop: try each provider of the event's source until one download succeeds. */
  method SearchSources(p: Prepared, io: string -> Minio.DownloadIo, order: seq<string>) returns (st: State)
    ensures st == SearchFrom(p, io, Start, order)
  {
    st := Start;
    var i := 0;
    while i < |order|
      invariant 0 <= i <= |order|
      invariant Searching(st)
      invariant SearchFrom(p, io, st, order[i..]) == SearchFrom(p, io, Start, order)
    {
      var name := order[i];
      ghost var next := SearchStep(p, io, st, name);
      assert order[i..][1..] == order[i + 1..];
      assert SearchFrom(p, io, st, order[i..]) == SearchFrom(p, io, next, order[i + 1..]);
      if name in p.providers && p.providers[name].providerType == p.event.eventSource {
        var provider := p.providers[name];
        var client := ClientFactory.GetClient(provider);
        st := st.(clients := st.clients[name := client]);
        if client.None? {
          st := st.(halt := Some(NilSourceClient(name)));
          return;
        }
        var r := Minio.Download(client.value, p.dir, p.event.path, io(name));
        if r.DownloadPanics? {
          st := st.(halt := Some(SourcePathPanic(name)));
          return;
        }
        st := st.(fileName := r.fileName, calls := st.calls + [DownloadCall(name, client.value, p.dir, p.event.path, r.err)]);
        if r.err.None? {
          break;
        }
      }
      i := i + 1;
    }
  }

  /** The lookup loop: the client of the provider named `name`, made from every provider carrying that name. */
  method LookupClient(providers: map<string, StorageProvider>, order: seq<string>, name: string,
                      client0: ClientFactory.StorageClient, clients0: map<string, ClientFactory.StorageClient>)
    returns (client: ClientFactory.StorageClient, clients: map<string, ClientFactory.StorageClient>)
    requires forall j :: 0 <= j < |order| ==> order[j] in providers
    ensures (client, clients) == LookupFrom(providers, order, name, client0, clients0)
  {
    client, clients := client0, clients0;
    for j := 0 to |order|
      invariant LookupFrom(providers, order[j..], name, client, clients) == LookupFrom(providers, order, name, client0, clients0)
    {
      assert order[j..][1..] == order[j + 1..];
      var provider := providers[order[j]];
      if name == provider.name {
        client := ClientFactory.GetClient(provider);
        clients := clients[provider.name := client];
      }
    }
  }

  lemma UploadFromStep(p: Prepared, io: string -> Minio.UploadIo, sourceOrder: seq<string>, st: State, order: seq<string>, i: nat)
    requires forall j :: 0 <= j < |order| ==> order[j] in p.dest
    requires st.halt.None? && i < |order|
    ensures UploadFrom(p, io, sourceOrder, st, order[i..])
         == UploadFrom(p, io, sourceOrder, UploadStep(p, io, sourceOrder, st, order[i]), order[i + 1..])
  {
    assert order[i..][1..] == order[i + 1..];
  }

  /** One iteration of the upload loop: find the destination's client, then upload the file to it. */
  method UploadOne(p: Prepared, io: string -> Minio.UploadIo, sourceOrder: seq<string>, st0: State, provName: string)
    returns (st: State)
    requires provName in p.dest
    requires forall j :: 0 <= j < |sourceOrder| ==> sourceOrder[j] in p.providers
    ensures st == UploadStep(p, io, sourceOrder, st0, provName)
  {
    var ok := provName in st0.clients;
    var client := if ok then st0.clients[provName] else None;
    var clients := st0.clients;
    var uploadPath := p.dest[provName] + "/" + Minio.Base(st0.fileName);
    if !ok {
      client, clients := LookupClient(p.providers, sourceOrder, provName, client, clients);
    }
    st := st0.(clients := clients);
    if client.None? {
      st := st.(halt := Some(NilUploadClient(provName)));
      return;
    }
    var r := Minio.Upload(client.value, st.fileName, uploadPath, io(provName));
    if r.UploadPanics? {
      st := st.(halt := Some(UploadPathPanic(provName)));
      return;
    }
    st := st.(calls := st.calls + [UploadCall(provName, client.value, st.fileName, uploadPath, r.err)]);
  }

  /** The upload loop: upload the file to every destination, logging and skipping failures. */
  method UploadAll(p: Prepared, io: string -> Minio.UploadIo, sourceOrder: seq<string>, st0: State, order: seq<string>)
    returns (st: State)
    requires st0.halt.None?
    requires forall i :: 0 <= i < |order| ==> order[i] in p.dest
    requires forall j :: 0 <= j < |sourceOrder| ==> sourceOrder[j] in p.providers
    ensures st == UploadFrom(p, io, sourceOrder, st0, order)
  {
    st := st0;
    var i := 0;
    while i < |order|
      invariant 0 <= i <= |order|
      invariant st.halt.None?
      invariant UploadFrom(p, io, sourceOrder, st, order[i..]) == UploadFrom(p, io, sourceOrder, st0, order)
    {
      UploadFromStep(p, io, sourceOrder, st, order, i);
      st := UploadOne(p, io, sourceOrder, st, order[i]);
      if st.halt.Some? {
        assert UploadFrom(p, io, sourceOrder, st, order[i + 1..]) == st;
        return;
      }
      i := i + 1;
    }
  }

  /** `Handle`: one run, from the configuration to the last upload. */
  method Handle(env: Environment, sourceOrder: seq<string>, uploadOrder: seq<string>)
    returns (outcome: Outcome, calls: seq<Call>)
    requires OrdersFit(env, sourceOrder, uploadOrder)
    ensures (outcome, calls) == Expected(env, sourceOrder, uploadOrder)
  {
    var configFileName := DEFAULT_CONFIG;
    if env.configFileVar.Some? {
      configFileName := env.configFileVar.value;
    }
    var path := SECRETS_DIR + configFileName;
    if path !in env.secrets {
      return Returned(ConfigUnavailable), [];
    }
    var file := env.secrets[path];
    var config := ReadConfig(file.readOk, file.decoded);
    if config.Failure? {
      return Returned(ConfigInvalid(config.error)), [];
    }
    var read := Events.ReadEvent(env.request);
    if read.Panic? {
      return Panicked(EventPanic(read.field)), [];
    }
    if read.InvalidEvent? {
      return Returned(EventInvalid), [];
    }
    var event := read.event;
    var dest := Routing.Route(event.objectKey, config.value.outputs);
    if |dest| == 0 {
      return Returned(NoMatchingOutput), [];
    }
    if env.tempDir.None? {
      return Returned(TempDirFailed), [];
    }
    var p := Prepared(config.value.storageProviders, event, dest, env.tempDir.value);
    assert Prepare(env) == Success(p);
    var st := SearchSources(p, env.downloadIo, sourceOrder);
    if st.halt.Some? {
      return Panicked(st.halt.value), st.calls;
    }
    if st.fileName == "" {
      return Returned(NotDownloaded), st.calls;
    }
    st := UploadAll(p, env.uploadIo, sourceOrder, st, uploadOrder);
    if st.halt.Some? {
      return Panicked(st.halt.value), st.calls;
    }
    return Returned(Completed), st.calls;
  }
}
