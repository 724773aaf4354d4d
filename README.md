# uw-gcs-clients response cache, modelled in Dafny

This project models the two layers of the `gcs_clients` package that cache
REST responses in a Google Cloud Storage bucket, and proves properties of
them.

- `gcs_clients/base.py` — `GCSBucketClient` writes (`set`, `_upload`),
  deletes and reads (`get`) keys of one bucket with its configured
  `replace`, `timeout` and `num_retries`; `GCSClient` builds that client on
  first use from the settings and forwards calls to it, logging storage and
  name-resolution errors and returning `None` for them.
- `gcs_clients/restclient.py` — `CachedHTTPResponse` (a stored response with
  case-insensitive `getheader`) and `RestclientGCSClient`, whose `getCache`,
  `updateCache` and `deleteCache` derive a key from the service and URL and
  read, write or delete that key. `getCache` and `updateCache` first consult
  the expiry policy; `deleteCache` does not.

Files and modules:

| file | module | contents |
|---|---|---|
| `py.dfy` | `Py` | Python values as `json.loads` produces them, truthiness, `dict` as an ordered list of entries, the exceptions involved, call outcomes |
| `urlsplit.dfy` | `UrlSplit` | the path and query `urlparse` finds in a relative URL (section 3 of RFC 3986) and their inverse, `Compose` |
| `base.dfy` | `Base` | the remote `Bucket` (contents and the log of upload and delete requests), `GCSBucketClient`, the `Shield` error policy and `GCSClient` |
| `restclient.dfy` | `Restclient` | header lookup, `CachedHTTPResponse`, `CreateKey`, `FormatData`, the default policy and `RestclientGCSClient` |

The bucket is an object of its own (`Base.Bucket`), shared by every client
built for it, holding the text stored under each key. Every operation that
reaches the storage service takes `fault`: the error the service raises for
the operation's first request, or `None` when it answers. Asked for a key
the bucket does not hold, `get_blob` answers `None` without an error, in
every operation. `json.loads` is the parameter
`loads`. `RestclientGCSClient` extends `GCSClient` in Python; here it holds
its `GCSClient` part as `shim`, and its overridable
`get_cache_expiration_time` is the function-valued field `policy`.
`processResponse` is another name for `updateCache` and is modelled by
`UpdateCache`.

What the proofs show about the code, with the bucket read as an abstract
map. As written, the `bucket` property of `GCSBucketClient` takes a
required argument that attribute access never supplies, so every
`self.bucket` access raises `TypeError` before `get_blob`, `blob` or an
upload is reached; nothing catches it (see "Left out"). The bullets below
describe the code past that access:

- `updateCache` never stores anything. `_format_data` returns a dict, and
  `_upload` uploads only a `str` or a `StringIO`, so the bucket and its
  request log are unchanged after every call (`UpdateCache`).
- `get` and `delete` of a key the bucket does not hold call a method on the
  `None` that `get_blob` answers, and fail with `AttributeError`. `GCSClient`
  re-raises that error, so neither a miss nor deleting an absent entry is
  quiet (`Download`, `Delete`, `Call`, `DeleteCache`).
- When the service itself answers `get` with `NotFound`, `get` logs it and
  then reads a variable it never assigned: `UnboundLocalError` (`Download`).
- `set` with `replace=False` on a key the bucket does not hold gets `None`
  from `get_blob`, makes a new blob and uploads it (`Upload`).
- `replace=False` only fetches the existing blob object. The upload still
  goes ahead, so a successful `set` leaves the key holding the new text
  whatever `replace` says (`Set`, `Upload`). The cache is sometimes
  described as keeping the first entry when `replace` is false; the code
  does not, and the model follows the code.
- During `updateCache`, a `socket.gaierror` escapes, because that path
  catches only `GoogleAPIError` and `ConnectionError` (`UpdateCache`).
- `getCache` passes `expire=` to a `get` that takes no such argument, so as
  written it raises `TypeError` whenever the policy allows caching (see
  "Left out"). `GetCache` reads that call as a plain `get` of the key.
  Under that reading, a transient storage or name-resolution error is a
  miss, and the `AttributeError` of a missing key propagates.
- Keys are path-based: the service, `-`, the path, then `?query` only when
  both path and query are non-empty. A query-only URL gives `service-`.
  Under one service, a key fixes the path and the kept query
  (`KeyDeterminesPathAndQuery`). Services without a hyphen never share a
  key (`ServicesSeparateKeys`).

## Model

| member | source | states |
|---|---|---|
| `Py.DictSet` | gcs_clients/restclient.py:81 | `d[k] = v` on a dict with distinct keys keeps the keys distinct: a new key is appended, an existing key keeps its position and takes the new value |
| `UrlSplit.Path` | gcs_clients/restclient.py:66-67 | the path holds no `?` or `#` and is a prefix of the URL |
| `UrlSplit.Query` | gcs_clients/restclient.py:66-68 | the query holds no `#` |
| `UrlSplit.SplitCompose` | gcs_clients/restclient.py:66-68 | splitting `path?query#fragment` gives back the path and the query (empty when there is no `?`): the split inverts composition |
| `Restclient.CreateKey` | gcs_clients/restclient.py:64-73 | a key is the service, `-`, then a prefix of the URL without any `#`; an empty path gives exactly `service-` |
| `Restclient.KeyOfComposed` | gcs_clients/restclient.py:65-73 | the key of `path[?query][#fragment]` is `service-path`, plus `?query` exactly when path and query are both non-empty; the fragment never counts |
| `Restclient.KeyDeterminesPathAndQuery` | gcs_clients/restclient.py:65-73 | two URLs with the same key under one service have the same path and the same kept query |
| `Restclient.ServicesSeparateKeys` | gcs_clients/restclient.py:73 | keys of different services without a hyphen differ, whatever the URLs |
| `Restclient.HeaderIndex` | gcs_clients/restclient.py:24-26 | the position found is the first header whose name equals the name asked for ignoring case, or the end when none does |
| `Restclient.ScanDictFrom` | gcs_clients/restclient.py:23-27 | the `getheader` loop over a dict returns the value of the first case-insensitive match, or the default |
| `Restclient.LookupHeaderOnDict` | gcs_clients/restclient.py:23-27 | `getheader` on a dict of headers returns the value at the first case-insensitive match, or the default |
| `Restclient.LookupFirstItemFails` | gcs_clients/restclient.py:24-26 | on headers that are a str or a list, looking up the first item's own name raises `TypeError` |
| `Restclient.CachedHTTPResponse.constructor` | gcs_clients/restclient.py:15-18 | headers, status and data come from the keyword arguments, defaulting to `{}`, `None` and `None` |
| `Restclient.CachedHTTPResponse.Read` | gcs_clients/restclient.py:20-21 | `read()` returns the stored data unchanged |
| `Restclient.CachedHTTPResponse.GetHeader` | gcs_clients/restclient.py:23-27 | on dict headers, returns the value of the first header in iteration order whose name equals `name` ignoring case, else `default` (`''` when omitted); `None` or non-iterable headers raise `TypeError` |
| `Restclient.GetHeaderIgnoresCase` | gcs_clients/restclient.py:25 | names equal ignoring case get the same answer, whatever the headers |
| `Restclient.FormatData` | gcs_clients/restclient.py:75-87 | the record has exactly the keys status, headers and data; status and data are copied; the headers have the response's names in order, each with its `getheader(name)` value; `None` headers give `{}`; a str, list or number as headers raises as Python does |
| `Restclient.FormattedHeadersLookup` | gcs_clients/restclient.py:79-81 | the formatted headers answer every case-insensitive lookup as the original headers do |
| `Restclient.RecordRoundTrip` | gcs_clients/restclient.py:76-87 | a response rebuilt from the stored record has the original status and data, and the same answer to every header lookup |
| `Restclient.DefaultExpirationTime` | gcs_clients/restclient.py:54-62 | the default policy never says "do not cache": it returns the configured default expiry, or `0` when none is configured, whatever the service, URL and status |
| `Restclient.RestclientGCSClient.constructor` | gcs_clients/base.py:23-24 | a client with an overriding policy starts as a `GCSClient` of the given settings and bucket, with no bucket client built yet |
| `Restclient.RestclientGCSClient.Default` | gcs_clients/restclient.py:54-62 | a client built without an override uses the default policy for every request |
| `Restclient.RestclientGCSClient.GetCache` | gcs_clients/restclient.py:31-36 | returns `Some(r)` for the dict `{"response": r}`; a "do not cache" policy returns nothing and leaves the lazy client unbuilt; otherwise the client is built or reused, and one guarded `get` of the derived key (read as a plain lookup) follows: a truthy dict becomes a response built from it, a falsy result is a miss, a storage or name-resolution error is a miss, other errors (the `AttributeError` of a missing key among them) propagate; the bucket never changes |
| `Restclient.RestclientGCSClient.DeleteCache` | gcs_clients/restclient.py:38-39 | removes exactly the derived key, sending one delete request with the configured timeout; a key the bucket does not hold raises `AttributeError`; errors other than storage and name-resolution errors propagate; every error leaves the bucket and its request log as they were; the client is built or reused |
| `Restclient.RestclientGCSClient.UpdateCache` | gcs_clients/restclient.py:41-52 | a "do not cache" policy does nothing; otherwise the bucket and its request log stay as they were, because the record is not a str or a StringIO; `GoogleAPIError` and `ConnectionError` are swallowed, other errors raised by `set` or by `_format_data` propagate |
| `Base.Download` | gcs_clients/base.py:137-149 | `get` returns the decoded content exactly when the key is present, no error occurs and the text decodes; a missing key fails with `AttributeError` (`get_blob` answered `None`), a `NotFound` from the service with `UnboundLocalError`, bad JSON with `ValueError`, other errors as raised; `NotFound` never escapes |
| `Base.GCSBucketClient.Get` | gcs_clients/base.py:137-149 | reading a key changes nothing and yields `Download` of the current contents |
| `Base.GCSBucketClient.constructor` | gcs_clients/base.py:60-74 | stores bucket name, `replace`, `timeout` and `num_retries`, with defaults `False`, `5` and `3` |
| `Base.GCSBucketClient.Upload` | gcs_clients/base.py:103-123 | a str goes only through `upload_from_string`, a StringIO only through `upload_from_file`, once each, with the configured retries and timeout; the key then holds the text, whether or not an existing blob was reused; other content uploads nothing |
| `Base.GCSBucketClient.Set` | gcs_clients/base.py:151-158 | after a successful `set` of a str or StringIO the key holds its text whatever `replace` says, and exactly one upload request of the matching kind is logged; no other key changes; other content leaves the bucket unchanged |
| `Base.GCSBucketClient.Delete` | gcs_clients/base.py:125-135 | removes exactly the key with the configured timeout; a key the bucket does not hold raises `AttributeError` (`get_blob` answered `None`); a `NotFound` from the service is swallowed; other errors propagate; no error changes the bucket |
| `Base.Shield` | gcs_clients/base.py:31-38 | `GoogleAPIError` (including `NotFound`) and `socket.gaierror` become a `None` result; everything else, `AttributeError` included, passes through unchanged |
| `Base.GCSClient.constructor` | gcs_clients/base.py:23-24 | a new wrapper has no bucket client yet |
| `Base.GCSClient.Client` | gcs_clients/base.py:40-51 | the bucket client is built from the settings (or the defaults) on first access and is the same object on every later access |
| `Base.GCSClient.Call` | gcs_clients/base.py:26-38 | forwards get, set or delete to the bucket client under `Shield`; an unknown operation raises `AttributeError`; storage and name-resolution errors never escape, while the `AttributeError` of a missing key does; each operation's effect on the bucket and its request log is stated |

## Left out

- Expiry is not evaluated. `get` in base.py takes no `expire` argument and checks no timestamp, so there is no expiry logic to model.
- Restclient.RestclientGCSClient.GetCache: treats `get(key, expire=...)` as the bucket client's plain lookup. The `get` in base.py accepts no `expire` keyword, so Python as written raises `TypeError` at that call whenever the policy allows caching.
- Restclient.RestclientGCSClient.UpdateCache: does not show that `set` is called exactly once with the derived key and the record. Nothing is uploaded for a dict, and lookups of existing blobs are not logged, so that call leaves no trace in the model's state.
- Restclient.CreateKey: requires `SimpleRelativeUrl(url)`, because only that part of `urlparse` is modelled. The URL must have no scheme, no `//` authority, no `;params`, and none of the characters Python strips before parsing. `GetCache`, `UpdateCache` and `DeleteCache` inherit this requirement whenever they derive a key.
- Restclient.FormatData: requires the response's header dict to have distinct keys, as every Python dict does.
- Restclient.SameName: folds only ASCII `A`–`Z`. Python's `str.lower` also folds other letters.
- The `client` and `bucket` properties of `GCSBucketClient` (base.py:76-101) and the `google.cloud.storage` objects are not modelled. The bucket is an abstract map; of the library, only `get_blob`'s `None` for a missing blob is modelled. As written, the `bucket` property's getter takes a required `bucket_name` argument (base.py:88-89), so every `self.bucket` access in `_upload`, `delete` and `get` raises `TypeError`. Neither `GCSClient`'s handler nor `updateCache`'s `except` catches it. The model reads `self.bucket` as the bucket the name designates.
- Thread-local storage is not modelled. `GCSClient.client` is one context's lazily built client.
- Logging is not modelled. A logged-and-swallowed error is a normal return.
- `json.loads` is the parameter `loads`. Floating-point JSON numbers are not among the modelled values.
- Each storage call takes a single `fault`: the error of the operation's first request. Retries and timeouts are passed through and recorded, never acted on.
- Base.GCSBucketClient.Upload: `replace` is a `bool`. The source tests `replace is False`, so a falsy non-bool value would skip the existing-blob lookup. `StringIO` content is read from its start.
- Base.Settings: the default expiry is an integer or unset. A setting of `None` (do not cache anything) is not expressible.
- Hashed keys are not modelled. `_create_key` builds path-based keys, and no key is hashed.
- Any base-path prefix for keys is not modelled; `_create_key` has none.
- The HTTP library's response objects (`HTTPHeaderDict` headers) are not modelled. `updateCache` is given a `CachedHTTPResponse`.
- `setup.py` and packaging are not modelled.
