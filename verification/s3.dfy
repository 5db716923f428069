/**
 * The S3 destination adapter: validation of its configuration, the per-set
 * object-name prefix, and `Write`, which names the object, hands it to the
 * object store and reports the outcome as exactly one event.
 *
 * The object store is a parameter (`store` answers an upload), and so are JSON
 * decoding (`decode`) and the clock (`now`, nanoseconds since the epoch).
 */
module Aws {
  import opened Wrappers
  import opened Types

  const DefaultObjectNamePrefix := "data"

  const MissingBucket := "config is missing an S3 bucket name"
  const MissingRegion := "config is missing an AWS region"
  const MissingAccessKey := "config is missing an AWS access key"
  const MissingSecretKey := "config is missing an AWS secret access key"

  datatype AwsConfig = AwsConfig(region: string, accessKeyId: string, secretAccessKey: string)

  /** The adapter configuration, as the destination's `AdapterConfig` document decodes. */
  datatype S3Config = S3Config(awsConfig: AwsConfig, bucketName: string)

  /** The per-set configuration. */
  datatype S3Set = S3Set(objectNamePrefix: string)

  /**
   * `readConfig`: a decoding error, or the first empty field in the order
   * bucket name, region, access key, secret key, is an error; otherwise the
   * decoded configuration unchanged.
   */
  function ReadConfig(decoded: Result<S3Config, string>): (r: Result<S3Config, string>)
    ensures r.Success? <==>
      && decoded.Success?
      && decoded.value.bucketName != ""
      && decoded.value.awsConfig.region != ""
      && decoded.value.awsConfig.accessKeyId != ""
      && decoded.value.awsConfig.secretAccessKey != ""
    ensures r.Success? ==> r.value == decoded.value
    ensures decoded.Failure? ==> r.Failure? && Mentions(r.error, decoded.error)
    ensures decoded.Success? ==> var c := decoded.value;
      && (c.bucketName == "" ==> r == Failure(MissingBucket))
      && (c.bucketName != "" && c.awsConfig.region == "" ==> r == Failure(MissingRegion))
      && (c.bucketName != "" && c.awsConfig.region != "" && c.awsConfig.accessKeyId == "" ==>
            r == Failure(MissingAccessKey))
      && ((c.bucketName != "" && c.awsConfig.region != "" && c.awsConfig.accessKeyId != ""
           && c.awsConfig.secretAccessKey == "") ==> r == Failure(MissingSecretKey))
  {
    match decoded
    case Failure(e) =>
      MentionsSuffix("error unmarshaling AwsConfig: ", e);
      Failure("error unmarshaling AwsConfig: " + e)
    case Success(c) =>
      if c.bucketName == "" then Failure(MissingBucket)
      else if c.awsConfig.region == "" then Failure(MissingRegion)
      else if c.awsConfig.accessKeyId == "" then Failure(MissingAccessKey)
      else if c.awsConfig.secretAccessKey == "" then Failure(MissingSecretKey)
      else Success(c)
  }

  /** The configuration a successfully built destination holds, or the wrapped validation error. */
  function Validated(destinationConfig: DestinationConfig, decode: Bytes -> Result<S3Config, string>)
    : (r: Result<S3Config, string>)
    ensures r.Success? <==> ReadConfig(decode(destinationConfig.adapterConfig)).Success?
    ensures r.Success? ==> r.value == decode(destinationConfig.adapterConfig).value
    ensures r.Failure? ==>
      r.error == "error reading S3 destination config: " + ReadConfig(decode(destinationConfig.adapterConfig)).error
  {
    match ReadConfig(decode(destinationConfig.adapterConfig))
    case Failure(e) => Failure("error reading S3 destination config: " + e)
    case Success(c) => Success(c)
  }

  /**
   * What `ForSet` makes of a decoded per-set document: the decoding error as
   * it is, or the document with an empty prefix replaced by `<setName>/data`.
   */
  function ApplySet(setName: string, decoded: Result<S3Set, string>): (r: Result<S3Set, string>)
    ensures decoded.Failure? ==> r == Failure(decoded.error)
    ensures decoded.Success? && decoded.value.objectNamePrefix != "" ==> r == decoded
    ensures decoded.Success? && decoded.value.objectNamePrefix == "" ==>
      r == Success(S3Set(setName + "/" + DefaultObjectNamePrefix))
    ensures r.Success? ==> r.value.objectNamePrefix != ""
  {
    match decoded
    case Failure(e) => Failure(e)
    case Success(c) =>
      if c.objectNamePrefix == "" then Success(S3Set(setName + "/" + DefaultObjectNamePrefix)) else Success(c)
  }

  // ---------------------------------------------------------------- writing

  function Digit(d: nat): (c: char)
    requires d < 10
    ensures '0' <= c <= '9' && DigitValue(c) == d
  {
    ('0' as int + d) as char
  }

  function DigitValue(c: char): int
  {
    c as int - '0' as int
  }

  /** The number a string of decimal digits denotes, most significant digit first. */
  function DecimalValue(s: string): int
  {
    if s == [] then 0 else 10 * DecimalValue(s[..|s| - 1]) + DigitValue(s[|s| - 1])
  }

  /** The decimal digits of `n`, as `%v` prints an integer. */
  function Decimal(n: nat): (s: string)
    ensures |s| >= 1
    ensures forall i :: 0 <= i < |s| ==> '0' <= s[i] <= '9'
    ensures (s[0] == '0') == (n == 0)
    ensures DecimalValue(s) == n
  {
    if n < 10 then [Digit(n)]
    else
      var s := Decimal(n / 10) + [Digit(n % 10)];
      assert s[..|s| - 1] == Decimal(n / 10);
      s
  }

  /** The object key: the prefix followed by the timestamp. */
  function ObjectKey(prefix: string, now: nat): (key: string)
    ensures |key| > |prefix| && key[..|prefix|] == prefix
    ensures forall i :: |prefix| <= i < |key| ==> '0' <= key[i] <= '9'
    ensures DecimalValue(key[|prefix|..]) == now
    ensures (key[|prefix|] == '0') == (now == 0)
  {
    var key := prefix + Decimal(now);
    assert key[|prefix|..] == Decimal(now);
    key
  }

  /** One upload as the object store receives it. */
  datatype Upload = Upload(awsConfig: AwsConfig, bucket: string, key: string, data: Bytes)

  /** The upload `Write` hands to the object store: the current bucket, the key for `now`, the data as read. */
  function UploadOf(config: S3Config, current: S3Set, data: Bytes, now: nat): (u: Upload)
    ensures u.awsConfig == config.awsConfig && u.bucket == config.bucketName && u.data == data
    ensures u.key == ObjectKey(current.objectNamePrefix, now)
  {
    Upload(config.awsConfig, config.bucketName, ObjectKey(current.objectNamePrefix, now), data)
  }

  /** What the object store makes of an upload. */
  datatype SaveOutcome =
    | SessionFailed(error: string)     // creating the AWS session failed
    | UploadFailed(error: string)      // the upload itself failed
    | Saved

  /** `saveObject`'s error, if any, for an upload of `key` to `bucket`. */
  function SaveError(bucket: string, key: string, outcome: SaveOutcome): (e: Option<string>)
    ensures e.None? <==> outcome.Saved?
    ensures outcome.SessionFailed? ==> e == Some("error initializing S3: " + outcome.error)
    ensures outcome.UploadFailed? ==> Mentions(e.value, bucket + "/" + key) && Mentions(e.value, outcome.error)
  {
    match outcome
    case SessionFailed(err) => Some("error initializing S3: " + err)
    case UploadFailed(err) =>
      MentionsEach("error saving data to ", bucket + "/" + key, " ... ", err);
      Some("error saving data to " + (bucket + "/" + key) + " ... " + err)
    case Saved => None
  }

  /** What `Write` returns and what it sends on the event log. */
  datatype WriteResult = WriteResult(error: Option<string>, events: seq<EventLogItem>)

  /**
   * A write of `data` under the set's prefix at time `now`: exactly one event,
   * an alert carrying the error when the save fails, otherwise an info record
   * naming the object key and the bucket.
   */
  function Written(config: S3Config, current: S3Set, data: Bytes, now: nat, store: Upload -> SaveOutcome)
    : (r: WriteResult)
    ensures var key := ObjectKey(current.objectNamePrefix, now);
      && |r.events| == 1
      && r.error == SaveError(config.bucketName, key, store(UploadOf(config, current, data, now)))
      && (r.error.Some? ==> r.events[0] == EventLogItem("error saving to S3: " + r.error.value, LogAlert))
      && (r.error.None? ==>
            r.events[0] == EventLogItem("saved to " + key + " on bucket " + config.bucketName, LogInfo))
  {
    var key := ObjectKey(current.objectNamePrefix, now);
    match SaveError(config.bucketName, key, store(UploadOf(config, current, data, now)))
    case Some(e) => WriteResult(Some(e), [EventLogItem("error saving to S3: " + e, LogAlert)])
    case None => WriteResult(None, [EventLogItem("saved to " + key + " on bucket " + config.bucketName, LogInfo)])
  }

  // ---------------------------------------------------------------- the adapter

  class S3Adapter {
    var destinationConfig: DestinationConfig
    var s3Config: S3Config
    var s3Set: S3Set
    /** Every upload handed to the object store so far, in order. */
    ghost var uploads: seq<Upload>

    /** A validated adapter with no set applied yet and nothing uploaded. */
    constructor (destinationConfig: DestinationConfig, s3Config: S3Config)
      ensures this.destinationConfig == destinationConfig && this.s3Config == s3Config
      ensures s3Set == S3Set("") && uploads == []
    {
      this.destinationConfig := destinationConfig;
      this.s3Config := s3Config;
      s3Set := S3Set("");
      uploads := [];
    }

    /** Replaces the per-set configuration on success; on a decoding error leaves it as it was. */
    method ForSet(setName: string, setConfigJson: Bytes, decode: Bytes -> Result<S3Set, string>)
      returns (err: Option<string>)
      modifies this
      ensures err == ApplySet(setName, decode(setConfigJson)).ErrorOption()
      ensures s3Set == (if err.None? then ApplySet(setName, decode(setConfigJson)).value else old(s3Set))
      ensures destinationConfig == old(destinationConfig) && s3Config == old(s3Config)
      ensures uploads == old(uploads)
    {
      var decoded := decode(setConfigJson);
      if decoded.Failure? {
        return Some(decoded.error);
      }
      s3Set := decoded.value;
      if s3Set.objectNamePrefix == "" {
        s3Set := s3Set.(objectNamePrefix := setName + "/" + DefaultObjectNamePrefix);
      }
      err := None;
    }

    /** Saves `data` under the current prefix and the time, sending one event about it. */
    method Write(data: Bytes, now: nat, store: Upload -> SaveOutcome) returns (err: Option<string>, eventLog: seq<EventLogItem>)
      modifies this
      ensures WriteResult(err, eventLog) == Written(s3Config, s3Set, data, now, store)
      ensures uploads == old(uploads) + [UploadOf(s3Config, s3Set, data, now)]
      ensures destinationConfig == old(destinationConfig) && s3Config == old(s3Config) && s3Set == old(s3Set)
    {
      var filename := ObjectKey(s3Set.objectNamePrefix, now);
      var upload := Upload(s3Config.awsConfig, s3Config.bucketName, filename, data);
      uploads := uploads + [upload];
      var saveErr := SaveError(s3Config.bucketName, filename, store(upload));
      if saveErr.Some? {
        eventLog := [EventLogItem("error saving to S3: " + saveErr.value, LogAlert)];
        return saveErr, eventLog;
      }
      eventLog := [EventLogItem("saved to " + filename + " on bucket " + s3Config.bucketName, LogInfo)];
      return None, eventLog;
    }
  }

  /** Builds the destination: validate the configuration, then keep the section it came from. */
  method NewS3Destination(destinationConfig: DestinationConfig, decode: Bytes -> Result<S3Config, string>)
    returns (r: Result<S3Adapter, string>)
    ensures r.Failure? <==> Validated(destinationConfig, decode).Failure?
    ensures r.Failure? ==> r.error == Validated(destinationConfig, decode).error
    ensures r.Success? ==> && fresh(r.value)
                           && r.value.s3Config == Validated(destinationConfig, decode).value
                           && r.value.destinationConfig == destinationConfig
                           && r.value.s3Set == S3Set("") && r.value.uploads == []
  {
    var s := ReadConfig(decode(destinationConfig.adapterConfig));
    if s.Failure? {
      return Failure("error reading S3 destination config: " + s.error);
    }
    var adapter := new S3Adapter(destinationConfig, s.value);
    return Success(adapter);
  }
}
