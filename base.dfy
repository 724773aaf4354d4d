/**
 * The storage-bucket client and its error-swallowing wrapper.
 *
 * The remote bucket is a `Bucket` object: the text each key holds, and the
 * log of uploads and deletions it has received with the retry count and
 * timeout each carried. `GCSBucketClient` writes, deletes and reads keys of
 * one bucket; `GCSClient` builds that client on first use from the settings
 * and forwards the operations {get, set, delete} to it, turning storage and
 * name-resolution errors into a logged `None`.
 *
 * Calls into the storage service may fail: every operation takes `fault`,
 * the error the service raises for the operation's first request (`None`
 * when it answers). Asked for a key the bucket does not hold, `get_blob`
 * answers `None`, without an error. Decoding JSON is the parameter `loads`
 * (`json.loads`; `None` for text that is not JSON).
 */
module Base {

  import opened Py

  /** The settings read through commonconf; `None` is a setting left undefined. */
  datatype Settings = Settings(
    bucketName: Option<string>,   // GCS_BUCKET_NAME
    replace: Option<bool>,        // GCS_REPLACE
    timeout: Option<int>,         // GCS_TIMEOUT
    numRetries: Option<int>,      // GCS_NUM_RETRIES
    defaultExpiry: Option<int>)   // RESTCLIENTS_GCS_DEFAULT_EXPIRY

  /** What `set` is given: a `str`, a `StringIO` (read from its start), or any other object. */
  datatype Content = Text(text: string) | Stream(text: string) | Other(value: Value)

  /** A request that changes the bucket, with the arguments it was sent with.
      `reusedBlob` says whether the blob object came from `get_blob` (an
      existing blob) rather than from `bucket.blob` (a new one). */
  datatype Request =
    | UploadFromString(key: string, text: string, numRetries: int, timeout: int, reusedBlob: bool)
    | UploadFromFile(key: string, text: string, numRetries: int, timeout: int, reusedBlob: bool)
    | DeleteBlob(key: string, timeout: int)

  /** `json.loads`: the decoded value, or `None` when the text is not JSON. */
  type Loads = string -> Option<Value>

  /** The remote bucket. */
  class Bucket {
    var blobs: map<string, string>
    var requests: seq<Request>

    constructor (blobs: map<string, string>)
      ensures this.blobs == blobs && requests == []
    {
      this.blobs := blobs;
      requests := [];
    }
  }

  /** What `get(key)` yields on a bucket holding `blobs`: the decoded content
      of the key. For a key the bucket does not hold, `get_blob` answers
      `None` and `download_as_string` is looked up on it: `AttributeError`.
      A `NotFound` from the service is caught and logged, after which the
      unassigned `content` is read: `UnboundLocalError`. Neither is a miss. */
  function Download(blobs: map<string, string>, key: string, fault: Option<Exception>, loads: Loads): (r: Outcome<Value>)
    ensures r.Returned? <==> fault.None? && key in blobs && loads(blobs[key]).Some?
    ensures r.Returned? ==> key in blobs && r.value == loads(blobs[key]).value
    ensures fault == Some(NotFound) ==> r == Raised(UnboundLocalError)
    ensures fault.Some? && fault.value != NotFound ==> r == Raised(fault.value)
    ensures fault.None? && key !in blobs ==> r == Raised(AttributeError)
    ensures fault.None? && key in blobs && loads(blobs[key]).None? ==> r == Raised(ValueError)
    ensures r != Raised(NotFound)
  {
    if fault.Some? then Raised(if fault.value == NotFound then UnboundLocalError else fault.value)
    else if key !in blobs then Raised(AttributeError)
    else match loads(blobs[key])
      case Some(v) => Returned(v)
      case None => Raised(ValueError)
  }

  class GCSBucketClient {
    const bucketName: Option<string>
    const bucket: Bucket
    const replace: bool
    const timeout: int
    const numRetries: int

    /** `GCSBucketClient(bucket_name, replace=False, timeout=5, num_retries=3)`;
        `bucket` is the bucket the name designates. */
    constructor (bucketName: Option<string>, bucket: Bucket, replace: bool := false, timeout: int := 5, numRetries: int := 3)
      ensures this.bucketName == bucketName && this.bucket == bucket
      ensures this.replace == replace && this.timeout == timeout && this.numRetries == numRetries
    {
      this.bucketName := bucketName;
      this.bucket := bucket;
      this.replace := replace;
      this.timeout := timeout;
      this.numRetries := numRetries;
    }

    /** Whether uploading `content` sends any request: `get_blob` when
        `replace` is false, and an upload for a `str` or a `StringIO`. */
    predicate SendsRequest(content: Content) {
      !replace || !content.Other?
    }

    /** `_upload`: a `str` goes through `upload_from_string`, a `StringIO`
        through `upload_from_file`, each once and with the configured retries
        and timeout; any other content is not uploaded. With `replace` false
        the existing blob object is fetched and reused, and still overwritten. */
    method Upload(key: string, content: Content, fault: Option<Exception>) returns (r: Outcome<Value>)
      modifies bucket
      ensures SendsRequest(content) && fault.Some? ==> r == Raised(fault.value)
      ensures !(SendsRequest(content) && fault.Some?) ==> r == Returned(Null)
      ensures r.Returned? && content.Text? ==>
        && bucket.blobs == old(bucket.blobs)[key := content.text]
        && bucket.requests == old(bucket.requests)
             + [UploadFromString(key, content.text, numRetries, timeout, !replace && key in old(bucket.blobs))]
      ensures r.Returned? && content.Stream? ==>
        && bucket.blobs == old(bucket.blobs)[key := content.text]
        && bucket.requests == old(bucket.requests)
             + [UploadFromFile(key, content.text, numRetries, timeout, !replace && key in old(bucket.blobs))]
      ensures r.Raised? || content.Other? ==>
        bucket.blobs == old(bucket.blobs) && bucket.requests == old(bucket.requests)
    {
      var reused := false;
      if !replace {
        if fault.Some? {
          return Raised(fault.value);
        }
        reused := key in bucket.blobs;
      }
      match content {
        case Text(s) =>
          if fault.Some? {
            return Raised(fault.value);
          }
          bucket.blobs := bucket.blobs[key := s];
          bucket.requests := bucket.requests + [UploadFromString(key, s, numRetries, timeout, reused)];
        case Stream(s) =>
          if fault.Some? {
            return Raised(fault.value);
          }
          bucket.blobs := bucket.blobs[key := s];
          bucket.requests := bucket.requests + [UploadFromFile(key, s, numRetries, timeout, reused)];
        case Other(_) =>
      }
      r := Returned(Null);
    }

    /** `set`: a successful write of a `str` or a `StringIO` leaves the key
        holding its text whatever `replace` says, and no other key changes;
        other content leaves the bucket as it was. */
    method Set(key: string, content: Content, fault: Option<Exception>) returns (r: Outcome<Value>)
      modifies bucket
      ensures r.Raised? <==> SendsRequest(content) && fault.Some?
      ensures r.Raised? ==> r.error == fault.value
      ensures r.Returned? ==> r.value == Null
      ensures r.Returned? && !content.Other? ==> bucket.blobs == old(bucket.blobs)[key := content.text]
      ensures r.Returned? && content.Text? ==>
        bucket.requests == old(bucket.requests) + [UploadFromString(key, content.text, numRetries, timeout, !replace && key in old(bucket.blobs))]
      ensures r.Returned? && content.Stream? ==>
        bucket.requests == old(bucket.requests) + [UploadFromFile(key, content.text, numRetries, timeout, !replace && key in old(bucket.blobs))]
      ensures forall k | k != key :: (k in bucket.blobs <==> k in old(bucket.blobs))
      ensures forall k | k != key && k in bucket.blobs :: bucket.blobs[k] == old(bucket.blobs)[k]
      ensures r.Raised? || content.Other? ==> bucket.blobs == old(bucket.blobs) && bucket.requests == old(bucket.requests)
    {
      r := Upload(key, content, fault);
    }

    /** `delete`: removes the key, sending the configured timeout. For a key
        the bucket does not hold, `get_blob` answers `None` and `delete` is
        looked up on it: `AttributeError`. A `NotFound` from the service is
        logged and swallowed; other errors propagate. Every error leaves the
        bucket as it was. */
    method Delete(key: string, fault: Option<Exception>) returns (r: Outcome<Value>)
      modifies bucket
      ensures r.Raised? <==> (fault.Some? && fault.value != NotFound) || (fault.None? && key !in old(bucket.blobs))
      ensures r.Raised? && fault.Some? ==> r.error == fault.value
      ensures fault.None? && key !in old(bucket.blobs) ==> r == Raised(AttributeError)
      ensures r.Returned? ==> r.value == Null
      ensures fault.None? ==> bucket.blobs == old(bucket.blobs) - {key}
      ensures fault.None? && key in old(bucket.blobs) ==> bucket.requests == old(bucket.requests) + [DeleteBlob(key, timeout)]
      ensures fault.Some? || key !in old(bucket.blobs) ==> bucket.blobs == old(bucket.blobs) && bucket.requests == old(bucket.requests)
    {
      if fault.Some? {
        if fault.value == NotFound {
          return Returned(Null);
        }
        return Raised(fault.value);
      }
      if key !in bucket.blobs {
        // `get_blob` answered `None`
        return Raised(AttributeError);
      }
      bucket.blobs := bucket.blobs - {key};
      bucket.requests := bucket.requests + [DeleteBlob(key, timeout)];
      r := Returned(Null);
    }

    /** `get`: downloads the key and decodes it as JSON; changes nothing. */
    method Get(key: string, fault: Option<Exception>, loads: Loads) returns (r: Outcome<Value>)
      ensures r == Download(bucket.blobs, key, fault, loads)
    {
      r := Download(bucket.blobs, key, fault, loads);
    }
  }

  /** The operations `GCSClient` forwards; `Unknown` is any name the bucket
      client does not have. */
  datatype Operation =
    | GetOp(key: string, loads: Loads)
    | SetOp(key: string, content: Content)
    | DeleteOp(key: string)
    | Unknown(name: string)

  /** The forwarding handler's error policy: a `GoogleAPIError` (including
      `NotFound`) or a `socket.gaierror` is logged and the call returns
      `None`; every other exception, `AttributeError` among them, propagates. */
  function Shield(o: Outcome<Value>): (r: Outcome<Value>)
    ensures r.Raised? <==> o.Raised? && !IsGoogleApiError(o.error) && o.error != GaiError
    ensures r.Raised? ==> r == o
    ensures o.Returned? ==> r == o
    ensures o.Raised? && !r.Raised? ==> r == Returned(Null)
  {
    match o
    case Raised(e) => if IsGoogleApiError(e) || e == GaiError then Returned(Null) else o
    case Returned(_) => o
  }

  class GCSClient {
    const settings: Settings
    /** The bucket GCS_BUCKET_NAME designates. */
    const bucket: Bucket
    /** The bucket client of this execution context (`self._local.client`),
        built on first use. */
    var client: Option<GCSBucketClient>

    /** A bucket client built as `__client__` builds it: the settings, or
        the defaults no bucket name, replace false, timeout 5, 3 retries. */
    predicate Configured(c: GCSBucketClient) {
      && c.bucket == bucket
      && c.bucketName == settings.bucketName
      && c.replace == settings.replace.GetOr(false)
      && c.timeout == settings.timeout.GetOr(5)
      && c.numRetries == settings.numRetries.GetOr(3)
    }

    ghost predicate Valid()
      reads this
    {
      client.Some? ==> Configured(client.value)
    }

    constructor (settings: Settings, bucket: Bucket)
      ensures this.settings == settings && this.bucket == bucket
      ensures client.None? && Valid()
    {
      this.settings := settings;
      this.bucket := bucket;
      client := None;
    }

    /** The `client` property: built from the settings on first access and
        the same object on every later access. */
    method Client() returns (c: GCSBucketClient)
      requires Valid()
      modifies this
      ensures Valid() && client == Some(c) && Configured(c)
      ensures old(client).Some? ==> c == old(client).value
      ensures old(client).None? ==> fresh(c)
    {
      if client.None? {
        var built := new GCSBucketClient(settings.bucketName, bucket,
          replace := settings.replace.GetOr(false),
          timeout := settings.timeout.GetOr(5),
          numRetries := settings.numRetries.GetOr(3));
        client := Some(built);
      }
      c := client.value;
    }

    /** `__getattr__`: forward `op` to the bucket client under `Shield`.
        The bucket client is built first, also for an unknown name. */
    method Call(op: Operation, fault: Option<Exception>) returns (r: Outcome<Value>)
      requires Valid()
      modifies this, bucket
      ensures Valid() && client.Some?
      ensures old(client).Some? ==> client == old(client)
      ensures r.Raised? ==> !IsGoogleApiError(r.error) && r.error != GaiError
      ensures r.Returned? && !op.GetOp? ==> r.value == Null
      ensures r.Raised? && op.SetOp? ==> fault.Some? && r.error == fault.value
      ensures r.Raised? && op.DeleteOp? && fault.Some? ==> r.error == fault.value
      ensures op.DeleteOp? && fault.None? && op.key !in old(bucket.blobs) ==> r == Raised(AttributeError)
      ensures op.Unknown? ==> r == Raised(AttributeError)
      ensures op.GetOp? ==> r == Shield(Download(old(bucket.blobs), op.key, fault, op.loads))
      ensures op.SetOp? ==> (r.Raised? <==> client.value.SendsRequest(op.content) && fault.Some? && !IsGoogleApiError(fault.value) && fault.value != GaiError)
      ensures op.DeleteOp? ==> (r.Raised? <==>
        (fault.Some? && !IsGoogleApiError(fault.value) && fault.value != GaiError) || (fault.None? && op.key !in old(bucket.blobs)))
      ensures op.SetOp? && fault.None? && !op.content.Other? ==> bucket.blobs == old(bucket.blobs)[op.key := op.content.text]
      ensures op.SetOp? && fault.None? && op.content.Text? ==>
        bucket.requests == old(bucket.requests) + [UploadFromString(op.key, op.content.text,
          client.value.numRetries, client.value.timeout, !client.value.replace && op.key in old(bucket.blobs))]
      ensures op.SetOp? && fault.None? && op.content.Stream? ==>
        bucket.requests == old(bucket.requests) + [UploadFromFile(op.key, op.content.text,
          client.value.numRetries, client.value.timeout, !client.value.replace && op.key in old(bucket.blobs))]
      ensures op.DeleteOp? && fault.None? ==> bucket.blobs == old(bucket.blobs) - {op.key}
      ensures op.DeleteOp? && fault.None? && op.key in old(bucket.blobs) ==>
        bucket.requests == old(bucket.requests) + [DeleteBlob(op.key, client.value.timeout)]
      ensures op.GetOp? || op.Unknown? || fault.Some? || (op.SetOp? && op.content.Other?)
              || (op.DeleteOp? && op.key !in old(bucket.blobs)) ==>
        bucket.blobs == old(bucket.blobs) && bucket.requests == old(bucket.requests)
    {
      var c := Client();
      match op
      case GetOp(key, loads) =>
        var o := c.Get(key, fault, loads);
        r := Shield(o);
      case SetOp(key, content) =>
        var o := c.Set(key, content, fault);
        r := Shield(o);
      case DeleteOp(key) =>
        var o := c.Delete(key, fault);
        r := Shield(o);
      case Unknown(_) =>
        r := Raised(AttributeError);
    }
  }
}
