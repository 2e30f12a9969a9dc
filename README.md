# multi-out-faas, modelled in Dafny

multi-out-faas is an OpenFaaS function that copies one stored object to
several storage providers. One invocation (`Handle`):
1. reads its JSON configuration (storage providers plus output rules) from a
   secret file;
2. normalises the storage notification that triggered it (S3, MinIO or
   OneData) into an `Event`;
3. selects the output rules whose key prefixes and suffixes accept the
   object key;
4. downloads the object from a provider of the event's source;
5. uploads it to every selected destination.

The Dafny project models that core:

- `events.dfy` (module `Events`) models `ReadEvent` over an already-decoded
  JSON value, including `url.QueryUnescape` and its inverse. It keeps the
  difference between checked type assertions (an error) and unchecked ones
  (a panic).
- `config.dfy` (module `Config`) models the configuration records and
  `convertStorages` as a loop over the three provider lists. The loop is
  proved equal to `Winner`, a reference definition without loops. It also
  models `ReadConfig`, with the reading and decoding of the file given as
  parameters.
- `clientfactory.dfy` (module `ClientFactory`) models `GetClient`. A
  `StorageClient` is an optional MinIO client, and nil is `None`.
- `minio.dfy` (module `Minio`) models the path arithmetic of `Download` and
  `Upload`: `filepath.Base`, `strings.Trim(path, "/")` and the
  `SplitN(…, "/", 2)` into bucket and key. The file-system and SDK steps
  become an outcome the caller supplies.
- `routing.dfy` (module `Routing`) models the output-selection loop of
  `Handle` as a method. It is proved equal to a fold, and the fold is
  characterised without loops.
- `handler.dfy` (module `Handler`) models `Handle` as a method built from
  three loops:
  - the download search over the providers;
  - the lookup of a destination's client;
  - the upload loop.

  Each loop is proved equal to a recursive specification function. The
  whole run is proved equal to `Expected`, and properties of a run are
  proved about `Expected`.
- `strings.dfy` and `wrappers.dfy` hold `HasPrefix`, `HasSuffix`,
  ASCII `ToLower`, `Option` and `Result`.

A Go panic is a result in the model rather than a crash:
- `Events.Panic`, for a missing or wrongly typed field read with an unchecked
  assertion, or an empty `Records` array;
- `Minio.DownloadPanics` and `Minio.UploadPanics`, for a path without a key,
  where `pathSlice[1]` is out of range;
- `Handler.Panicked`, which also covers a method call on a nil client.

Go's map iteration order is unspecified. The model takes it as input:
- `sourceOrder` enumerates the configured providers;
- `uploadOrder` enumerates the selected destinations.

Every property of a run is stated for every such order.

## Model

| member | source | states |
|---|---|---|
| Strings.ToLower | clients/clientfactory.go:40 | the result has the input's length, and each byte is folded to lower case on its own |
| Events.QueryUnescape | events/event.go:84-87 | an unescaped key is never longer than its escaped form |
| Events.UnescapeEscape | events/event.go:84-87 | unescaping inverts escaping: `QueryUnescape(QueryEscape(s)) == Some(s)` for every byte string |
| Events.UnescapeByte | events/event.go:84-87 | one escaped byte in front of text that unescapes reads back as that byte in front of its unescaping |
| Events.UnescapePlain | events/event.go:84-87 | a key with no `%` and no `+` unescapes to itself |
| Events.ReadEvent | events/event.go:39-102 | a missing or non-object document is the invalid-event error; a read event's source is one of onedata, s3 and minio; an s3 or minio event's path ends in "/" followed by its object key |
| Events.ReadRecord | events/event.go:57-77 | dispatch on the first record's `eventSource`: a read event has one of the three canonical sources and, for s3 and minio, a path ending in "/" followed by its key |
| Events.ReadOneTrigger | events/event.go:57-66 | a OneTrigger record reads as an event with source "onedata" |
| Events.ReadS3 | events/event.go:79-101 | an S3 or MinIO record that reads gives an event with the given source, whose path ends in "/" followed by its object key |
| Events.S3EventRoundTrip | events/event.go:79-101 | an "aws:s3" or "minio:s3" notification for any bucket and any escaped key reads back as the event for `bucket/key`, with source s3 or minio |
| Events.OneTriggerEventRoundTrip | events/event.go:58-66 | a OneTrigger notification reads back verbatim, with source "onedata" |
| Events.BadEscapeRejected | events/event.go:84-87 | a key that is not valid query escaping gives the invalid-event error |
| Events.ReadEventDialect | events/event.go:57-77 | only the first record's `eventSource` decides the canonical source, in both directions; any other value is the invalid-event error |
| Events.RecordsShape | events/event.go:47-55 | no `Records` array is an error; an empty array panics at `Records[0]`; a first record that is not an object is an error |
| Events.OnlyFirstRecord | events/event.go:52-55 | records after the first never change the result |
| Events.OneTriggerFields | events/event.go:58-66 | for any OneTrigger document: a non-string `Key`, then `objectKey`, then `eventTime` panics at that field; with all three strings the event is made of them verbatim |
| Events.S3Fields | events/event.go:79-99 | for any S3 or MinIO document, in field order: a non-object `s3` or `s3.object` panics; a non-string or badly escaped `key` is the error; then a non-object `s3.bucket` panics, a non-string `name` is the error and a non-string `eventTime` panics |
| Events.S3RecordReads | events/event.go:79-101 | for any S3 or MinIO document whose fields have the right types, the event is the bucket name, "/" and the unescaped key as path, the unescaped key, the event time and the source, whatever else the document holds |
| Events.InvalidTestInputs | events/event_test.go:168-191 | text that is not JSON, `{}` and `[]` are all the invalid-event error |
| Events.PlainKeyEvent | events/event.go:94-101 | a notification whose key needs no unescaping reads back with the key as it is |
| Events.MinioTestEvent | events/event_test.go:27-89 | the MinIO notification of the tests, every field included, reads as the expected event: path "images/nature-wallpaper-229.jpg", key "nature-wallpaper-229.jpg", its time, source minio |
| Events.S3TestEvent | events/event_test.go:91-141 | the S3 notification of the tests, every field included, reads as the expected event: path "scar-darknet-bucket/scar-darknet-s3/input/dog.jpg", the key with its slashes, its time, source s3 |
| Events.OneDataTestEvent | events/event_test.go:143-166 | the OneData notification of the tests, every field included, reads as the expected event with source onedata |
| Minio.TrimLeft | clients/minio.go:43 | the result is a suffix of the input, only slashes were dropped, and it does not start with a slash |
| Minio.TrimRight | clients/minio.go:43 | the result is a prefix of the input, only slashes were dropped, and it does not end with a slash |
| Minio.TrimSlashes | clients/minio.go:43 | the trimmed text is no longer than the input and neither starts nor ends with a slash; an empty or all-slash path trims to "" |
| Minio.TrimLeftAfterSlashes | clients/minio.go:43 | leading slashes are dropped and nothing after them |
| Minio.TrimRightBeforeSlashes | clients/minio.go:43 | trailing slashes are dropped and nothing before them |
| Minio.TrimmedJoin | clients/minio.go:43 | trimming text that has no slash at either end, wrapped in slashes, gives that text back |
| Minio.FirstSlash | clients/minio.go:43 | the index of the first slash: none before it, and a slash at it unless it is the length |
| Minio.SplitBucketKey | clients/minio.go:43-45 | `None` exactly when the trimmed path has no slash; otherwise the bucket has no slash, and bucket, "/" and key rebuild the trimmed path |
| Minio.SplitOfTrimmed | clients/minio.go:43-45 | a trimmed path equal to bucket, "/" and key splits into exactly that bucket and key |
| Minio.SplitJoin | clients/minio.go:43-45 | splitting inverts joining, for any surrounding slashes |
| Minio.SplitsWithContent | clients/minio.go:43-45 | a path whose bucket and key parts each hold a byte other than a slash always splits, so the code does not panic |
| Minio.LastElement | clients/minio.go:42 | the text after the last slash: a slash-free suffix, preceded by a slash when it is not the whole input |
| Minio.Base | clients/minio.go:42 | "." for the empty path; "/" exactly for a non-empty path of slashes only; otherwise the slash-free last element of the path once its trailing slashes are dropped |
| Minio.BaseOfJoin | handler.go:139 | the base of `dir + "/" + name` is `name` for a slash-free name |
| Minio.LastElementOfJoin | clients/minio.go:42 | the last element of `dir + "/" + name` is `name` |
| Minio.SplitPathHasBase | clients/minio.go:42-45 | a path that splits has a base name other than "/" |
| Minio.Download | clients/minio.go:41-68 | panics exactly when the path has no key; no error exactly when every step succeeds; the empty name exactly on an error; on success the name is `directory + "/" + Base(path)` |
| Minio.Upload | clients/minio.go:71-92 | panics exactly when the path has no key; no error exactly when opening and putting the object succeed |
| ClientFactory.SameIgnoringCaseLower | clients/clientfactory.go:40 | two texts are equal up to ASCII case exactly when their lower-cased forms are equal |
| ClientFactory.LowerIsMinio | clients/clientfactory.go:40-41 | lower-casing gives "minio" exactly for the casings of "minio" |
| ClientFactory.GetClient | clients/clientfactory.go:39-46 | a client exists exactly when the type spells "minio" in any ASCII casing, and it is built from the endpoint and the two keys; every other type gets nil |
| ClientFactory.ConfiguredTypes | clients/clientfactory.go:39-46 | of the three stamped types, only "minio" gets a client; "s3" and "onedata" get nil |
| ClientFactory.GetClientIgnoresOtherFields | clients/clientfactory.go:39-46 | the name, the token and the space never affect the client |
| Config.LastNamed | config/config.go:72-89 | an entry of the list with the given name and no entry with that name after it, or `None` exactly when no entry has that name |
| Config.InsertLookup | config/config.go:73-76 | after one loop, a name maps to the last entry with that name, retyped, or to what was there before |
| Config.ConvertedIsWinner | config/config.go:70-91 | the merged map gives each name to the entry `Winner` picks: onedata beats minio beats s3, and the later entry wins within a list |
| Config.WinnerCopiesEntry | config/config.go:70-91 | every stored provider is a configured entry with only its type changed, stored under its own name, with one of the three types |
| Config.ConvertedKeys | config/config.go:70-91 | a name is stored exactly when some list holds an entry with that name |
| Config.AbsentListsContributeNothing | config/config.go:72-89 | a nil list and an empty list give the same map, and three nil lists give the empty map |
| Config.TwoListScenario | config/config_test.go:29-114 | a configuration shaped like the test's, with one s3 provider and one minio provider under different names, gives exactly those two providers, stamped "s3" and "minio" |
| Config.AddProviders | config/config.go:73-76 | one loop of `convertStorages` yields the fold `Insert` over the list |
| Config.ConvertStorages | config/config.go:70-91 | the result is `Converted(s)`; each name gets `Winner`'s entry; every key is its provider's name |
| Config.ReadConfig | config/config.go:94-109 | an unreadable file is the load error; a document that is not a configuration is the format error; otherwise the outputs pass through and the providers are the converted lists |
| Routing.DestinationsChar | handler.go:67-99 | a provider is a destination exactly when some selecting rule names it, and its path is that of the last such rule |
| Routing.LaterRuleWins | handler.go:96-98 | of two selecting rules for one provider, the later one decides the path when no rule after it selects the key for that provider |
| Routing.UnfilteredRuleSelectsAll | handler.go:73-87 | a rule with neither prefixes nor suffixes selects every key |
| Routing.NoSelectingRule | handler.go:101-105 | rules that select nothing give no destination |
| Routing.SuffixRuleScenario | handler.go:83-95 | a rule with the suffixes "avi" and "txt" and no prefix takes "clip.avi" and refuses "clip.mov" |
| Routing.Route | handler.go:67-99 | the selection loop yields `Destinations`, with its membership characterisation |
| Handler.Candidates | handler.go:119-120 | the providers tried for the download are exactly those of the order whose type is the event's source |
| Handler.CandidatesAppend | handler.go:119-120 | the candidates keep the order of the providers: those of a concatenation are those of each part, in turn |
| Handler.SearchStepCases | handler.go:120-128 | one download iteration skips, panics without a call, or makes one download from that provider's own client; it has a file exactly when that download had no error |
| Handler.SearchCalls | handler.go:117-130 | the download loop only appends calls, and they are downloads from the first candidates in order, all but the last failed |
| Handler.SearchEnd | handler.go:117-134 | the download loop ends with a file exactly when its last download succeeded; without a panic or a file it tried every candidate; a panic names the next candidate |
| Handler.SearchKeepsClients | handler.go:117-122 | the download loop records only the clients `GetClient` makes for their providers |
| Handler.LookupFinds | handler.go:141-148 | the lookup loop yields the client of the provider named like the destination, or leaves the client unchanged when there is none |
| Handler.LookupIgnoresOrder | handler.go:141-148 | the lookup result does not depend on the map's iteration order |
| Handler.ClientForAgrees | handler.go:138-148 | a destination's client is the one `GetClient` makes for the provider of that name, or nil when there is none |
| Handler.UploadStepKeeps | handler.go:137-148 | an upload iteration keeps the file name and the agreement of the recorded clients |
| Handler.UploadStepHalts | handler.go:148-150 | an upload iteration that panics makes no call, and the cause is a nil client or a path without a key |
| Handler.UploadStepCalls | handler.go:150-155 | an upload iteration that does not panic makes exactly one upload, of the file, to the destination's path, with its own client |
| Handler.UploadShape | handler.go:137-156 | the upload loop uploads to each destination in order whatever earlier uploads returned; it stops only at a destination without a client or with a path that has no key |
| Handler.PrepareOutcomes | handler.go:40-114 | before the download only the event can panic, no early return reports a download or a completed run, and a run that gets through has read its event, selected at least one output and made its directory |
| Handler.PreparedKeysAreNames | config/config.go:70-91 | every provider of a loaded configuration is stored under its own name |
| Handler.SearchOfRun | handler.go:117-134 | the download phase of a run satisfies the download-loop properties from the empty state |
| Handler.RunShape | handler.go:117-156 | every run makes downloads first and uploads after; it uploads only after a successful download, and only the downloaded file |
| Handler.CompletedRun | handler.go:137-158 | a completed run downloaded once and then uploaded exactly once to each destination, in order, with that provider's client; so every destination names a MinIO provider |
| Handler.NotDownloadedRun | handler.go:117-134 | a run that ends without a file tried every candidate in order, and every download failed |
| Handler.NoOutputSelects | handler.go:101-105 | when no rule selects the key, the run stops before downloading, with no calls |
| Handler.NoSourceProvider | handler.go:119-134 | with no provider of the event's source, the run makes no calls and ends without a file |
| Handler.FirstCandidateNil | handler.go:119-122 | when no candidate has a client, the download loop panics at the first candidate without a call |
| Handler.NonMinioSourcePanics | handler.go:119-122 | an s3 or onedata event with a matching provider panics on the nil client of the first one |
| Handler.UploadIgnoresErrors | handler.go:150-155 | apart from the errors recorded, the upload loop does not depend on what earlier uploads returned |
| Handler.UploadStepIgnoresErrors | handler.go:150-155 | one upload iteration, with errors erased, does not depend on the upload outcomes |
| Handler.UploadFailuresTolerated | handler.go:150-155 | a run's outcome and calls, with errors erased, are the same whatever the uploads return |
| Handler.SearchSources | handler.go:117-130 | the download loop computes `SearchFrom` from the empty state |
| Handler.LookupClient | handler.go:141-148 | the lookup loop computes `LookupFrom` |
| Handler.UploadOne | handler.go:138-155 | one iteration of the upload loop computes `UploadStep` |
| Handler.UploadAll | handler.go:137-156 | the upload loop computes `UploadFrom` |
| Handler.Handle | handler.go:38-159 | a run's outcome and calls are `Expected`, whose properties the lemmas above state |

## Left out

- JSON text decoding is not modelled. `ReadEvent` takes the decoded value, `None` when the text is not JSON. `ReadConfig` takes a flag for a failed read and the decoded configuration, `None` when decoding fails. Which texts fail to decode is left to `encoding/json`.
- File and environment input and output are parameters of the run:
  - `os.LookupEnv("CONFIG_FILE")`;
  - the secret files;
  - `ioutil.TempDir`;
  - the file creation, `GetObject`, copy, open and `PutObject` steps. These become `DownloadIo` and `UploadIo` outcomes chosen per provider.
- The error texts of the SDK and the `defer` clean-ups are not modelled. This covers closing files and `os.RemoveAll` of the temporary directory.
- Log lines are not modelled, and `Handle` always returns the empty string. The model returns the exit reason instead.
- `getMinioClient` (clients/minio.go:94-108) builds an AWS SDK session. A client is modelled as its endpoint and two keys, without the session settings.
- Strings.ToLower: folds ASCII letters only. `strings.ToLower` also folds non-ASCII letters, which no configured type uses.
- `url.QueryUnescape` and `QueryEscape` are modelled on byte strings. Bytes are `char` values below 256.
- Go's map iteration order is a parameter: `sourceOrder` and `uploadOrder` enumerate the key sets. The lookup loop at handler.go:142 ranges over the same providers map as the download loop, so it reuses `sourceOrder`. `LookupIgnoresOrder` shows that its result does not depend on that order.
- Concurrency is not modelled, because the function handles one request at a time.
- A destination that names no configured provider, or a provider that is not MinIO, leaves a nil client, and the upload at handler.go:150 panics on it. The model follows the code, so this is `Panicked(NilUploadClient(...))` rather than an upload error. The same holds for a download from an s3 or onedata source, as `NonMinioSourcePanics` states.
