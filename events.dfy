/**
 * The event normaliser of events/event.go: a decoded notification document
 * becomes one canonical `Event`, an `InvalidEvent` error, or a Go runtime
 * panic (an index out of range or a failed single-value type assertion).
 */
module Events {
  import opened Wrappers
  import opened Strings

  /**
   * A JSON document as encoding/json decodes it into `interface{}` values:
   * objects become maps from field names to values, arrays sequences.
   */
  datatype Json =
    | JNull
    | JBool(b: bool)
    | JNum(n: real)
    | JStr(s: string)
    | JArr(items: seq<Json>)
    | JObj(fields: map<string, Json>)

  /** The canonical event every storage dialect is normalised into. */
  datatype Event = Event(path: string, objectKey: string, eventTime: string, eventSource: string)

  /** What `ReadEvent` does with a document: returns an event, returns the error, or panics. */
  datatype ReadResult =
    | Read(event: Event)
    | InvalidEvent
    | Panic(field: string)

  /** The three canonical event sources. */
  const ONEDATA := "onedata"
  const S3 := "s3"
  const MINIO := "minio"

  /**
   * Indexing a Go `map[string]interface{}`: a missing key gives the nil
   * interface, which is also what a JSON `null` decodes to.
   */
  function Lookup(m: map<string, Json>, k: string): Json {
    if k in m then m[k] else JNull
  }

  // ---------------------------------------------------------------------
  // url.QueryUnescape and its inverse
  // ---------------------------------------------------------------------

  predicate IsHex(c: char) {
    '0' <= c <= '9' || 'a' <= c <= 'f' || 'A' <= c <= 'F'
  }

  function HexValue(c: char): (v: nat)
    requires IsHex(c)
    ensures v < 16
  {
    if '0' <= c <= '9' then c as int - '0' as int
    else if 'a' <= c <= 'f' then c as int - 'a' as int + 10
    else c as int - 'A' as int + 10
  }

  /** The upper-case hex digit `url.QueryEscape` writes for a nibble. */
  function HexDigit(v: nat): (c: char)
    requires v < 16
    ensures IsHex(c) && HexValue(c) == v
  {
    if v < 10 then ('0' as int + v) as char else ('A' as int + v - 10) as char
  }

  /** Go strings are byte strings: every character is one byte. */
  predicate IsByteString(s: string) {
    forall i :: 0 <= i < |s| ==> s[i] as int < 256
  }

  /**
   * `url.QueryUnescape`: `%XX` becomes the byte XX, `+` becomes a space,
   * and a `%` not followed by two hex digits makes the whole call fail.
   */
  function QueryUnescape(s: string): (r: Option<string>)
    ensures r.Some? ==> |r.value| <= |s|
  {
    if s == [] then Some([])
    else if s[0] == '%' then
      if |s| < 3 || !IsHex(s[1]) || !IsHex(s[2]) then None
      else
        match QueryUnescape(s[3..])
        case None => None
        case Some(rest) => Some([(HexValue(s[1]) * 16 + HexValue(s[2])) as char] + rest)
    else
      match QueryUnescape(s[1..])
      case None => None
      case Some(rest) => Some([if s[0] == '+' then ' ' else s[0]] + rest)
  }

  /** The bytes `url.QueryEscape` leaves as they are. */
  predicate Unreserved(c: char) {
    'a' <= c <= 'z' || 'A' <= c <= 'Z' || '0' <= c <= '9' || c == '-' || c == '_' || c == '.' || c == '~'
  }

  /** How `url.QueryEscape` writes one byte: as itself, as `+` for a space, or as `%XX`. */
  function EscapeByte(c: char): (r: string)
    requires c as int < 256
  {
    if Unreserved(c) then [c]
    else if c == ' ' then ['+']
    else ['%', HexDigit(c as int / 16), HexDigit(c as int % 16)]
  }

  /** `url.QueryEscape`, the encoding storage services apply to object keys in notifications. */
  function QueryEscape(s: string): (r: string)
    requires IsByteString(s)
  {
    if s == [] then [] else EscapeByte(s[0]) + QueryEscape(s[1..])
  }

  /** Unescaping undoes escaping: every key a storage service escapes comes back intact. */
  lemma {:induction false} UnescapeEscape(s: string)
    requires IsByteString(s)
    ensures QueryUnescape(QueryEscape(s)) == Some(s)
  {
    if s != [] {
      assert IsByteString(s[1..]);
      UnescapeEscape(s[1..]);
      UnescapeByte(s[0], QueryEscape(s[1..]), s[1..]);
      assert [s[0]] + s[1..] == s;
    }
  }

  /** An escaped byte in front of text that unescapes reads back as that byte in front. */
  lemma UnescapeByte(c: char, rest: string, r: string)
    requires c as int < 256
    requires QueryUnescape(rest) == Some(r)
    ensures QueryUnescape(EscapeByte(c) + rest) == Some([c] + r)
  {
    var e := EscapeByte(c) + rest;
    if Unreserved(c) || c == ' ' {
      assert e[1..] == rest;
    } else {
      assert e[3..] == rest;
      HexPair(c);
    }
  }

  /** The two hex digits written for a byte read back as that byte. */
  lemma HexPair(c: char)
    requires c as int < 256
    ensures (HexValue(HexDigit(c as int / 16)) * 16 + HexValue(HexDigit(c as int % 16))) as char == c
  {
  }

  /** A key with no `%` and no `+` unescapes to itself. */
  lemma {:induction false} UnescapePlain(s: string)
    requires forall i :: 0 <= i < |s| ==> s[i] != '%' && s[i] != '+'
    ensures QueryUnescape(s) == Some(s)
  {
    if s != [] {
      UnescapePlain(s[1..]);
      assert [s[0]] + s[1..] == s;
    }
  }

  // ---------------------------------------------------------------------
  // ReadEvent
  // ---------------------------------------------------------------------

  /**
   * `ReadEvent`. `raw` is the result of `json.Unmarshal`: `None` when the
   * text is not JSON. Decoding into a `map[string]interface{}` fails for any
   * document that is not an object, and `null` leaves the map nil, so every
   * non-object document ends in the invalid-event error.
   */
  function ReadEvent(raw: Option<Json>): (r: ReadResult)
    ensures raw.None? || !raw.value.JObj? ==> r == InvalidEvent
    ensures r.Read? ==> r.event.eventSource in {ONEDATA, S3, MINIO}
    ensures r.Read? && r.event.eventSource != ONEDATA ==>
              HasSuffix(r.event.path, "/" + r.event.objectKey)
  {
    if raw.None? || !raw.value.JObj? then InvalidEvent
    else
      var top := raw.value.fields;
      var records := Lookup(top, "Records");
      if !records.JArr? then InvalidEvent
      else if |records.items| == 0 then Panic("Records[0]")
      else if !records.items[0].JObj? then InvalidEvent
      else ReadRecord(top, records.items[0].fields)
  }

  /** Dispatch on the first record's `eventSource`. */
  function ReadRecord(top: map<string, Json>, record0: map<string, Json>): (r: ReadResult)
    ensures r.Read? ==> r.event.eventSource in {ONEDATA, S3, MINIO}
    ensures r.Read? && r.event.eventSource != ONEDATA ==>
              HasSuffix(r.event.path, "/" + r.event.objectKey)
  {
    var source := Lookup(record0, "eventSource");
    if source == JStr("OneTrigger") then ReadOneTrigger(top, record0)
    else if source == JStr("aws:s3") then ReadS3(record0, S3)
    else if source == JStr("minio:s3") then ReadS3(record0, MINIO)
    else InvalidEvent
  }

  /** The onedata dialect: three unchecked string assertions, in field order. */
  function ReadOneTrigger(top: map<string, Json>, record0: map<string, Json>): (r: ReadResult)
    ensures r.Read? ==> r.event.eventSource == ONEDATA
  {
    var path, objectKey, eventTime :=
      Lookup(top, "Key"), Lookup(record0, "objectKey"), Lookup(record0, "eventTime");
    if !path.JStr? then Panic("Key")
    else if !objectKey.JStr? then Panic("objectKey")
    else if !eventTime.JStr? then Panic("eventTime")
    else Read(Event(path.s, objectKey.s, eventTime.s, ONEDATA))
  }

  /**
   * The S3 and MinIO dialect. The `s3`, `s3.object` and `s3.bucket`
   * assertions are unchecked (panic); the `key` and `name` ones are checked
   * (error); the key is unescaped before the bucket is looked at.
   */
  function ReadS3(record0: map<string, Json>, source: string): (r: ReadResult)
    ensures r.Read? ==> r.event.eventSource == source
    ensures r.Read? ==> HasSuffix(r.event.path, "/" + r.event.objectKey)
  {
    var s3 := Lookup(record0, "s3");
    if !s3.JObj? then Panic("s3")
    else
      var obj := Lookup(s3.fields, "object");
      if !obj.JObj? then Panic("s3.object")
      else
        var escaped := Lookup(obj.fields, "key");
        if !escaped.JStr? then InvalidEvent
        else
          var key := QueryUnescape(escaped.s);
          if key.None? then InvalidEvent
          else
            var bucket := Lookup(s3.fields, "bucket");
            if !bucket.JObj? then Panic("s3.bucket")
            else
              var name := Lookup(bucket.fields, "name");
              if !name.JStr? then InvalidEvent
              else
                var eventTime := Lookup(record0, "eventTime");
                if !eventTime.JStr? then Panic("eventTime")
                else
                  SuffixOfJoin(name.s, "/" + key.value);
                  assert name.s + "/" + key.value == name.s + ("/" + key.value);
                  Read(Event(name.s + "/" + key.value, key.value, eventTime.s, source))
  }

  // ---------------------------------------------------------------------
  // Documents of each dialect, and what ReadEvent makes of them
  // ---------------------------------------------------------------------

  /** The fields an S3 or MinIO notification carries that the normaliser reads. */
  function S3Document(bucket: string, escapedKey: string, eventTime: string, eventSource: string): Json {
    JObj(map["Records" := JArr([JObj(map[
      "eventSource" := JStr(eventSource),
      "eventTime" := JStr(eventTime),
      "s3" := JObj(map[
        "bucket" := JObj(map["name" := JStr(bucket)]),
        "object" := JObj(map["key" := JStr(escapedKey)])])])])])
  }

  /** The fields a OneTrigger (onedata) notification carries that the normaliser reads. */
  function OneTriggerDocument(key: string, objectKey: string, eventTime: string): Json {
    JObj(map[
      "Key" := JStr(key),
      "Records" := JArr([JObj(map[
        "eventSource" := JStr("OneTrigger"),
        "objectKey" := JStr(objectKey),
        "eventTime" := JStr(eventTime)])])])
  }

  /**
   * An S3 or MinIO notification for any bucket and any key, escaped as the
   * service escapes it, reads back as the event for `bucket/key`.
   */
  lemma S3EventRoundTrip(bucket: string, key: string, eventTime: string)
    requires IsByteString(key)
    ensures ReadEvent(Some(S3Document(bucket, QueryEscape(key), eventTime, "aws:s3")))
            == Read(Event(bucket + "/" + key, key, eventTime, S3))
    ensures ReadEvent(Some(S3Document(bucket, QueryEscape(key), eventTime, "minio:s3")))
            == Read(Event(bucket + "/" + key, key, eventTime, MINIO))
  {
    UnescapeEscape(key);
    S3DocumentReads(bucket, QueryEscape(key), key, eventTime, "aws:s3", S3);
    S3DocumentReads(bucket, QueryEscape(key), key, eventTime, "minio:s3", MINIO);
  }

  /** A document built by `S3Document` whose key unescapes reads as the event for `bucket/key`. */
  lemma S3DocumentReads(bucket: string, escaped: string, key: string, eventTime: string, eventSource: string, source: string)
    requires (eventSource == "aws:s3" && source == S3) || (eventSource == "minio:s3" && source == MINIO)
    requires QueryUnescape(escaped) == Some(key)
    ensures ReadEvent(Some(S3Document(bucket, escaped, eventTime, eventSource))) == Read(Event(bucket + "/" + key, key, eventTime, source))
  {
  }

  /** A OneTrigger notification reads back verbatim, with source "onedata". */
  lemma OneTriggerEventRoundTrip(key: string, objectKey: string, eventTime: string)
    ensures ReadEvent(Some(OneTriggerDocument(key, objectKey, eventTime)))
            == Read(Event(key, objectKey, eventTime, ONEDATA))
  {
  }

  /** A key that is not valid query escaping is rejected, whatever the rest of the document. */
  lemma BadEscapeRejected(bucket: string, escapedKey: string, eventTime: string, eventSource: string)
    requires eventSource == "aws:s3" || eventSource == "minio:s3"
    requires QueryUnescape(escapedKey).None?
    ensures ReadEvent(Some(S3Document(bucket, escapedKey, eventTime, eventSource))) == InvalidEvent
  {
  }

  /** The first record's `eventSource`, when the document gets that far. */
  function Record0(raw: Option<Json>): Option<map<string, Json>> {
    if raw.Some? && raw.value.JObj? then
      match Lookup(raw.value.fields, "Records")
      case JArr(records) =>
        if |records| > 0 && records[0].JObj? then Some(records[0].fields) else None
      case _ => None
    else None
  }

  /**
   * The canonical source is determined by the first record's `eventSource`
   * alone, and any other value there (a non-string included) is an error.
   */
  lemma ReadEventDialect(raw: Option<Json>)
    ensures ReadEvent(raw).Read? ==> Record0(raw).Some?
    ensures Record0(raw).Some? ==>
      var source := Lookup(Record0(raw).value, "eventSource");
      var r := ReadEvent(raw);
      && (source !in {JStr("OneTrigger"), JStr("aws:s3"), JStr("minio:s3")} ==> r == InvalidEvent)
      && (r.Read? ==>
            && (r.event.eventSource == ONEDATA <==> source == JStr("OneTrigger"))
            && (r.event.eventSource == S3 <==> source == JStr("aws:s3"))
            && (r.event.eventSource == MINIO <==> source == JStr("minio:s3")))
  {
  }

  /** A document without a `Records` array is an error; an empty one panics. */
  lemma RecordsShape(top: map<string, Json>)
    ensures !Lookup(top, "Records").JArr? ==> ReadEvent(Some(JObj(top))) == InvalidEvent
    ensures Lookup(top, "Records") == JArr([]) ==> ReadEvent(Some(JObj(top))) == Panic("Records[0]")
    ensures (Lookup(top, "Records").JArr? && |Lookup(top, "Records").items| > 0
             && !Lookup(top, "Records").items[0].JObj?) ==> ReadEvent(Some(JObj(top))) == InvalidEvent
  {
  }

  /** Only the first record is consulted: appending records changes nothing. */
  lemma OnlyFirstRecord(top: map<string, Json>, first: Json, more: seq<Json>)
    ensures ReadEvent(Some(JObj(top["Records" := JArr([first] + more)])))
            == ReadEvent(Some(JObj(top["Records" := JArr([first])])))
  {
  }

  /**
   * A OneTrigger record: `Key` (from the top level), then `objectKey` and
   * `eventTime` (from the record) are asserted to be strings, in that order;
   * the first that is not one panics, and when all three are the event is
   * made of them verbatim.
   */
  lemma OneTriggerFields(top: map<string, Json>, rec: map<string, Json>)
    requires Record0(Some(JObj(top))) == Some(rec)
    requires Lookup(rec, "eventSource") == JStr("OneTrigger")
    ensures var key, objectKey, eventTime := Lookup(top, "Key"), Lookup(rec, "objectKey"), Lookup(rec, "eventTime");
      var r := ReadEvent(Some(JObj(top)));
      && (!key.JStr? ==> r == Panic("Key"))
      && (key.JStr? && !objectKey.JStr? ==> r == Panic("objectKey"))
      && (key.JStr? && objectKey.JStr? && !eventTime.JStr? ==> r == Panic("eventTime"))
      && (key.JStr? && objectKey.JStr? && eventTime.JStr? ==>
            r == Read(Event(key.s, objectKey.s, eventTime.s, ONEDATA)))
  {
  }

  /**
   * An S3 or MinIO record fails at the first field that is missing or of the
   * wrong type: `s3` and `s3.object` panic, a non-string or badly escaped
   * `key` is the error, then `s3.bucket` panics, a non-string `name` is the
   * error and a non-string `eventTime` panics.
   */
  lemma S3Fields(top: map<string, Json>, rec: map<string, Json>)
    requires Record0(Some(JObj(top))) == Some(rec)
    requires Lookup(rec, "eventSource") == JStr("aws:s3") || Lookup(rec, "eventSource") == JStr("minio:s3")
    ensures var r, s3 := ReadEvent(Some(JObj(top))), Lookup(rec, "s3");
      && (!s3.JObj? ==> r == Panic("s3"))
      && (s3.JObj? && !Lookup(s3.fields, "object").JObj? ==> r == Panic("s3.object"))
      && (s3.JObj? && Lookup(s3.fields, "object").JObj? ==>
            var key, bucket := Lookup(Lookup(s3.fields, "object").fields, "key"), Lookup(s3.fields, "bucket");
            && (!key.JStr? || QueryUnescape(key.s).None? ==> r == InvalidEvent)
            && (key.JStr? && QueryUnescape(key.s).Some? && !bucket.JObj? ==> r == Panic("s3.bucket"))
            && (key.JStr? && QueryUnescape(key.s).Some? && bucket.JObj? ==>
                  && (!Lookup(bucket.fields, "name").JStr? ==> r == InvalidEvent)
                  && (Lookup(bucket.fields, "name").JStr? && !Lookup(rec, "eventTime").JStr? ==> r == Panic("eventTime"))))
  {
  }

  /**
   * An S3 or MinIO record whose fields all have the right types reads as the
   * event for `bucket/key`, the key unescaped, whatever else the document holds.
   */
  lemma S3RecordReads(top: map<string, Json>, rec: map<string, Json>, s3: map<string, Json>,
                      obj: map<string, Json>, bucket: map<string, Json>,
                      escaped: string, key: string, name: string, eventTime: string, source: string)
    requires Record0(Some(JObj(top))) == Some(rec)
    requires (Lookup(rec, "eventSource") == JStr("aws:s3") && source == S3)
          || (Lookup(rec, "eventSource") == JStr("minio:s3") && source == MINIO)
    requires Lookup(rec, "s3") == JObj(s3) && Lookup(s3, "object") == JObj(obj) && Lookup(s3, "bucket") == JObj(bucket)
    requires Lookup(obj, "key") == JStr(escaped) && QueryUnescape(escaped) == Some(key)
    requires Lookup(bucket, "name") == JStr(name) && Lookup(rec, "eventTime") == JStr(eventTime)
    ensures ReadEvent(Some(JObj(top))) == Read(Event(name + "/" + key, key, eventTime, source))
  {
  }

  /** The invalid inputs of the repository's own tests: empty text, `{}`, `[]` and two malformed texts. */
  lemma InvalidTestInputs()
    ensures ReadEvent(None) == InvalidEvent
    ensures ReadEvent(Some(JObj(map[]))) == InvalidEvent
    ensures ReadEvent(Some(JArr([]))) == InvalidEvent
  {
  }

  /** A notification whose key needs no unescaping reads back with the key as it is. */
  lemma PlainKeyEvent(bucket: string, key: string, eventTime: string)
    requires forall i :: 0 <= i < |key| ==> key[i] != '%' && key[i] != '+'
    ensures ReadEvent(Some(S3Document(bucket, key, eventTime, "aws:s3")))
            == Read(Event(bucket + "/" + key, key, eventTime, S3))
    ensures ReadEvent(Some(S3Document(bucket, key, eventTime, "minio:s3")))
            == Read(Event(bucket + "/" + key, key, eventTime, MINIO))
  {
    UnescapePlain(key);
    S3DocumentReads(bucket, key, key, eventTime, "aws:s3", S3);
    S3DocumentReads(bucket, key, key, eventTime, "minio:s3", MINIO);
  }

  // ---------------------------------------------------------------------
  // The notifications of the repository's tests, field for field. A map
  // has no order: each level is its own function, and the fields the
  // normaliser reads are written last in each display.
  // ---------------------------------------------------------------------

  /** `s3.object` of the MinIO test notification. */
  function MinioTestObject(): map<string, Json> {
    map[
      "userMetadata" := JObj(map["content-type" := JStr("image/jpeg")]),
      "eTag" := JStr("dd20b7e4b74467ff16ce2d901c054419"),
      "contentType" := JStr("image/jpeg"),
      "sequencer" := JStr("153C9A7A7A3FB6AE"),
      "versionId" := JStr("1"),
      "size" := JNum(1019645.0),
      "key" := JStr("nature-wallpaper-229.jpg")]
  }

  /** `s3.bucket` of the MinIO test notification. */
  function MinioTestBucket(): map<string, Json> {
    map[
      "ownerIdentity" := JObj(map["principalId" := JStr("minio")]),
      "arn" := JStr("arn:aws:s3:::images"),
      "name" := JStr("images")]
  }

  /** `s3` of the MinIO test notification. */
  function MinioTestS3(): map<string, Json> {
    map[
      "s3SchemaVersion" := JStr("1.0"),
      "configurationId" := JStr("Config"),
      "object" := JObj(MinioTestObject()),
      "bucket" := JObj(MinioTestBucket())]
  }

  /** The single record of the MinIO test notification. */
  function MinioTestRecord(): map<string, Json> {
    map[
      "requestParameters" := JObj(map["sourceIPAddress" := JStr("10.244.0.0:34852")]),
      "responseElements" := JObj(map[
        "x-amz-request-id" := JStr("153C9A7A7A3FB6AE"),
        "x-minio-origin-endpoint" := JStr("http://10.244.1.3:9000")]),
      "source" := JObj(map["userAgent" := JStr(""), "host" := JStr(""), "port" := JStr("")]),
      "eventVersion" := JStr("2.0"),
      "eventName" := JStr("s3:ObjectCreated:Put"),
      "awsRegion" := JStr(""),
      "userIdentity" := JObj(map["principalId" := JStr("minio")]),
      "eventTime" := JStr("2018-06-29T10:23:44Z"),
      "eventSource" := JStr("minio:s3"),
      "s3" := JObj(MinioTestS3())]
  }

  /** The MinIO test notification, with the top-level fields MinIO adds. */
  function MinioTestDocument(): Json {
    JObj(map[
      "Key" := JStr("images/nature-wallpaper-229.jpg"),
      "EventName" := JStr("s3:ObjectCreated:Put"),
      "Records" := JArr([JObj(MinioTestRecord())])])
  }

  /** Where the normaliser finds each field of the MinIO test record. */
  lemma MinioTestRecordFields()
    ensures Record0(Some(MinioTestDocument())) == Some(MinioTestRecord())
    ensures Lookup(MinioTestRecord(), "eventSource") == JStr("minio:s3")
    ensures Lookup(MinioTestRecord(), "s3") == JObj(MinioTestS3())
    ensures Lookup(MinioTestRecord(), "eventTime") == JStr("2018-06-29T10:23:44Z")
  {
  }

  /** Where the normaliser finds each field of the MinIO test record's `s3` object. */
  lemma MinioTestS3Fields()
    ensures Lookup(MinioTestS3(), "object") == JObj(MinioTestObject())
    ensures Lookup(MinioTestS3(), "bucket") == JObj(MinioTestBucket())
    ensures Lookup(MinioTestObject(), "key") == JStr("nature-wallpaper-229.jpg")
    ensures Lookup(MinioTestBucket(), "name") == JStr("images")
  {
  }

  /** The MinIO test key needs no unescaping. */
  lemma MinioTestKey()
    ensures QueryUnescape("nature-wallpaper-229.jpg") == Some("nature-wallpaper-229.jpg")
  {
    var key := "nature-wallpaper-229.jpg";
    assert forall i :: 0 <= i < |key| ==> key[i] != '%' && key[i] != '+';
    UnescapePlain(key);
  }

  /** The MinIO test's expected path joins the bucket and the key with a slash. */
  lemma MinioTestPath()
    ensures "images" + "/" + "nature-wallpaper-229.jpg" == "images/nature-wallpaper-229.jpg"
  {
    var path := "images" + "/" + "nature-wallpaper-229.jpg";
    forall i | 0 <= i < |path| ensures path[i] == "images/nature-wallpaper-229.jpg"[i] {
    }
  }

  /** The MinIO notification of the repository's tests reads as the object in bucket "images". */
  lemma MinioTestEvent()
    ensures ReadEvent(Some(MinioTestDocument()))
            == Read(Event("images/nature-wallpaper-229.jpg", "nature-wallpaper-229.jpg", "2018-06-29T10:23:44Z", MINIO))
  {
    MinioTestRecordFields();
    MinioTestS3Fields();
    MinioTestKey();
    MinioTestPath();
    S3RecordReads(MinioTestDocument().fields, MinioTestRecord(), MinioTestS3(), MinioTestObject(), MinioTestBucket(),
                  "nature-wallpaper-229.jpg", "nature-wallpaper-229.jpg", "images", "2018-06-29T10:23:44Z", MINIO);
  }

  /** `s3.object` of the S3 test notification. */
  function S3TestObject(): map<string, Json> {
    map[
      "eTag" := JStr("XXXXX"),
      "sequencer" := JStr("XXXXX"),
      "size" := JNum(999.0),
      "key" := JStr("scar-darknet-s3/input/dog.jpg")]
  }

  /** `s3.bucket` of the S3 test notification. */
  function S3TestBucket(): map<string, Json> {
    map[
      "arn" := JStr("arn:aws:s3:::scar-darknet-bucket"),
      "ownerIdentity" := JObj(map["principalId" := JStr("XXXXX")]),
      "name" := JStr("scar-darknet-bucket")]
  }

  /** `s3` of the S3 test notification. */
  function S3TestS3(): map<string, Json> {
    map[
      "configurationId" := JStr("XXXXX"),
      "s3SchemaVersion" := JStr("1.0"),
      "object" := JObj(S3TestObject()),
      "bucket" := JObj(S3TestBucket())]
  }

  /** The single record of the S3 test notification. */
  function S3TestRecord(): map<string, Json> {
    map[
      "awsRegion" := JStr("us-east-1"),
      "eventName" := JStr("ObjectCreated:Put"),
      "eventVersion" := JStr("2.1"),
      "requestParameters" := JObj(map["sourceIPAddress" := JStr("84.123.4.23")]),
      "responseElements" := JObj(map["x-amz-id-2" := JStr("XXXXX"), "x-amz-request-id" := JStr("XXXXX")]),
      "userIdentity" := JObj(map["principalId" := JStr("AWS:XXXXX")]),
      "eventTime" := JStr("2019-02-23T11:40:46.473Z"),
      "eventSource" := JStr("aws:s3"),
      "s3" := JObj(S3TestS3())]
  }

  /** The S3 test notification: a `Records` array and nothing else at the top level. */
  function S3TestDocument(): Json {
    JObj(map["Records" := JArr([JObj(S3TestRecord())])])
  }

  /** Where the normaliser finds each field of the S3 test record. */
  lemma S3TestRecordFields()
    ensures Record0(Some(S3TestDocument())) == Some(S3TestRecord())
    ensures Lookup(S3TestRecord(), "eventSource") == JStr("aws:s3")
    ensures Lookup(S3TestRecord(), "s3") == JObj(S3TestS3())
    ensures Lookup(S3TestRecord(), "eventTime") == JStr("2019-02-23T11:40:46.473Z")
  {
  }

  /** Where the normaliser finds each field of the S3 test record's `s3` object. */
  lemma S3TestS3Fields()
    ensures Lookup(S3TestS3(), "object") == JObj(S3TestObject())
    ensures Lookup(S3TestS3(), "bucket") == JObj(S3TestBucket())
    ensures Lookup(S3TestObject(), "key") == JStr("scar-darknet-s3/input/dog.jpg")
    ensures Lookup(S3TestBucket(), "name") == JStr("scar-darknet-bucket")
  {
  }

  /** The S3 test key needs no unescaping. */
  lemma S3TestKey()
    ensures QueryUnescape("scar-darknet-s3/input/dog.jpg") == Some("scar-darknet-s3/input/dog.jpg")
  {
    var key := "scar-darknet-s3/input/dog.jpg";
    assert forall i :: 0 <= i < |key| ==> key[i] != '%' && key[i] != '+';
    UnescapePlain(key);
  }

  /** The S3 test's expected path joins the bucket and the key with a slash. */
  lemma S3TestPath()
    ensures "scar-darknet-bucket" + "/" + "scar-darknet-s3/input/dog.jpg" == "scar-darknet-bucket/scar-darknet-s3/input/dog.jpg"
  {
    var path := "scar-darknet-bucket" + "/" + "scar-darknet-s3/input/dog.jpg";
    forall i | 0 <= i < |path| ensures path[i] == "scar-darknet-bucket/scar-darknet-s3/input/dog.jpg"[i] {
    }
  }

  /** The S3 notification of the repository's tests: the key keeps its slashes. */
  lemma S3TestEvent()
    ensures ReadEvent(Some(S3TestDocument()))
            == Read(Event("scar-darknet-bucket/scar-darknet-s3/input/dog.jpg", "scar-darknet-s3/input/dog.jpg",
                          "2019-02-23T11:40:46.473Z", S3))
  {
    S3TestRecordFields();
    S3TestS3Fields();
    S3TestKey();
    S3TestPath();
    S3RecordReads(S3TestDocument().fields, S3TestRecord(), S3TestS3(), S3TestObject(), S3TestBucket(),
                  "scar-darknet-s3/input/dog.jpg", "scar-darknet-s3/input/dog.jpg", "scar-darknet-bucket",
                  "2019-02-23T11:40:46.473Z", S3);
  }

  /** The OneData test notification, from OneTrigger. */
  function OneDataTestDocument(): Json {
    JObj(map[
      "Key" := JStr("/my-onedata-space/files/file.txt"),
      "Records" := JArr([JObj(map[
        "objectKey" := JStr("file.txt"),
        "objectId" := JStr("0000034500046EE9C6775..."),
        "eventTime" := JStr("2019-02-07T09:51:04.347823"),
        "eventSource" := JStr("OneTrigger")])])])
  }

  /** The OneData notification of the repository's tests reads back verbatim, with source "onedata". */
  lemma OneDataTestEvent()
    ensures ReadEvent(Some(OneDataTestDocument()))
            == Read(Event("/my-onedata-space/files/file.txt", "file.txt", "2019-02-07T09:51:04.347823", ONEDATA))
  {
  }
}
