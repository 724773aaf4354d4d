/**
 * The response cache of the REST client on top of the bucket clients:
 * cached responses with case-insensitive header lookup, the storage key of
 * a (service, URL) pair, the record a response is stored as, the expiry
 * policy, and the lookup, store and delete paths.
 */
module Restclient {

  import opened Py
  import opened UrlSplit
  import opened Base

  // ----- Header names compared ignoring case

  /** `str.lower` on one character, for ASCII letters. */
  function LowerChar(c: char): char {
    if 'A' <= c <= 'Z' then (c as int + ('a' as int - 'A' as int)) as char else c
  }

  function Lower(s: string): string {
    seq(|s|, i requires 0 <= i < |s| => LowerChar(s[i]))
  }

  /** `a.lower() == b.lower()` */
  predicate SameName(a: string, b: string) {
    Lower(a) == Lower(b)
  }

  /** Headers as a dict: names with their values, in iteration order. */
  type Headers = seq<(string, Value)>

  /** `k` is the first position whose header name equals `name` ignoring
      case, or `|h|` when no name does. */
  predicate IsFirstMatch(h: Headers, name: string, k: nat) {
    && k <= |h|
    && (forall j | 0 <= j < k :: !SameName(h[j].0, name))
    && (k < |h| ==> SameName(h[k].0, name))
  }

  lemma FirstMatchUnique(h: Headers, name: string, k1: nat, k2: nat)
    requires IsFirstMatch(h, name, k1) && IsFirstMatch(h, name, k2)
    ensures k1 == k2
  {
  }

  /** The position of the first header named `name` ignoring case. */
  function HeaderIndex(h: Headers, name: string): (k: nat)
    ensures IsFirstMatch(h, name, k)
  {
    if h == [] then 0
    else if SameName(h[0].0, name) then 0
    else 1 + HeaderIndex(h[1..], name)
  }

  /** The value of the first header named `name` ignoring case, or `default`. */
  function HeaderValue(h: Headers, name: string, default: Value): Value {
    var k := HeaderIndex(h, name);
    if k < |h| then h[k].1 else default
  }

  // ----- Python iteration and subscription on header containers

  /** The items `for x in v` visits: the keys of a dict, the one-character
      strings of a str, the items of a list; `None` when `v` is not iterable. */
  function Iter(v: Value): Option<seq<Value>> {
    match v
    case Dict(e) => Some(KeyItems(e))
    case Str(s) => Some(seq(|s|, i requires 0 <= i < |s| => Str([s[i]])))
    case List(items) => Some(items)
    case _ => None
  }

  function KeyItems(e: Headers): seq<Value> {
    seq(|e|, i requires 0 <= i < |e| => Str(e[i].0))
  }

  /** `v[key]` for a string key: a dict's value, `KeyError` for a missing
      key, `TypeError` for anything that is not a dict. */
  function Subscript(v: Value, key: string): Outcome<Value> {
    match v
    case Dict(e) => (match DictLookup(e, key) case Some(x) => Returned(x) case None => Raised(KeyError))
    case _ => Raised(TypeError)
  }

  /** The loop of `getheader` over the remaining `items` of `headers`. */
  function ScanHeaders(headers: Value, items: seq<Value>, name: string, default: Value): Outcome<Value> {
    if items == [] then Returned(default)
    else match items[0]
      case Str(h) =>
        if SameName(name, h) then Subscript(headers, h)
        else ScanHeaders(headers, items[1..], name, default)
      case _ => Raised(AttributeError)   // `.lower()` of a header that is not a str
  }

  /** `getheader(name, default)` on a response whose headers are `headers`. */
  function LookupHeader(headers: Value, name: string, default: Value): Outcome<Value> {
    match Iter(headers)
    case None => Raised(TypeError)
    case Some(items) => ScanHeaders(headers, items, name, default)
  }

  /** Scanning a dict from position `i` on, when no earlier name matches,
      finds the first header named `name` ignoring case. */
  lemma {:induction false} ScanDictFrom(e: Headers, i: nat, name: string, default: Value)
    requires i <= |e|
    requires forall j | 0 <= j < i :: !SameName(e[j].0, name)
    ensures ScanHeaders(Dict(e), KeyItems(e)[i..], name, default) == Returned(HeaderValue(e, name, default))
    decreases |e| - i
  {
    var items := KeyItems(e)[i..];
    var k := HeaderIndex(e, name);
    if i == |e| {
      assert items == [];
      FirstMatchUnique(e, name, k, |e|);
    } else {
      assert items[0] == Str(e[i].0);
      if SameName(name, e[i].0) {
        FirstMatchUnique(e, name, k, i);
        assert forall j | 0 <= j < i :: e[j].0 != e[i].0;
        assert KeyIndex(e, e[i].0) == i;
      } else {
        assert items[1..] == KeyItems(e)[i + 1..];
        ScanDictFrom(e, i + 1, name, default);
      }
    }
  }

  /** The lookup gives the same result for names equal ignoring case. */
  lemma {:induction false} ScanSameName(headers: Value, items: seq<Value>, a: string, b: string, default: Value)
    requires SameName(a, b)
    ensures ScanHeaders(headers, items, a, default) == ScanHeaders(headers, items, b, default)
  {
    if items != [] && items[0].Str? && !SameName(a, items[0].s) {
      ScanSameName(headers, items[1..], a, b, default);
    }
  }

  // ----- Cached responses

  class CachedHTTPResponse {
    const headers: Value
    const status: Value
    const data: Value

    /** The fields `CachedHTTPResponse(**kwargs)` sets: headers default to
        an empty dict, status and data to `None`. */
    predicate BuiltFrom(kwargs: seq<(string, Value)>) {
      && headers == DictLookup(kwargs, "headers").GetOr(Dict([]))
      && status == DictLookup(kwargs, "status").GetOr(Null)
      && data == DictLookup(kwargs, "data").GetOr(Null)
    }

    constructor (kwargs: seq<(string, Value)>)
      ensures BuiltFrom(kwargs)
      ensures kwargs == [] ==> headers == Dict([]) && status == Null && data == Null
    {
      headers := DictLookup(kwargs, "headers").GetOr(Dict([]));
      status := DictLookup(kwargs, "status").GetOr(Null);
      data := DictLookup(kwargs, "data").GetOr(Null);
    }

    /** `read()` returns the body as stored, unchanged. */
    function Read(): (r: Value)
      ensures r == data
    {
      data
    }

    /** `getheader(val, default='')`: the value of the first header, in
        iteration order, whose name equals `name` ignoring case; `default`
        when there is none. Headers that are `None` or not iterable raise
        `TypeError`. */
    function GetHeader(name: string, default: Value := Str("")): (r: Outcome<Value>)
      ensures headers.Dict? ==> r.Returned?
      ensures headers.Dict? ==> exists k: nat :: (IsFirstMatch(headers.entries, name, k)
        && r.value == (if k < |headers.entries| then headers.entries[k].1 else default))
      ensures headers.Null? || headers.Bool? || headers.Int? ==> r == Raised(TypeError)
    {
      if headers.Dict? then ScanDictFrom(headers.entries, 0, name, default); LookupHeader(headers, name, default)
      else LookupHeader(headers, name, default)
    }
  }

  /** Looking a header up ignores the case of the name asked for. */
  lemma {:induction false} GetHeaderIgnoresCase(response: CachedHTTPResponse, a: string, b: string, default: Value)
    requires SameName(a, b)
    ensures response.GetHeader(a, default) == response.GetHeader(b, default)
  {
    match Iter(response.headers)
    case None =>
    case Some(items) => ScanSameName(response.headers, items, a, b, default);
  }

  // ----- Key derivation

  /** `_create_key`: the service, a hyphen and the URL path, followed by
      `?query` only when both the path and the query are non-empty. */
  function CreateKey(service: string, url: string): (key: string)
    requires SimpleRelativeUrl(url)
    ensures |service| + 1 <= |key| <= |service| + 1 + |url|
    ensures key[..|service| + 1] == service + "-"
    ensures key[|service| + 1..] == url[..|key| - |service| - 1]
    ensures '#' !in key[|service| + 1..]
    ensures Path(url) == "" ==> key == service + "-"
  {
    var path := Path(url);
    var query := Query(url);
    var urlKey := if path != "" && query != "" then path + "?" + query else path;
    if path != "" && query != "" then
      var u := WithoutFragment(url);
      var i := Find(u, '?');
      assert i < |u| && path == u[..i] && query == u[i + 1..] && u[i] == '?';
      assert urlKey == u;
      service + "-" + urlKey
    else
      service + "-" + urlKey
  }

  /** The key of a URL assembled from a path, an optional query and an
      optional fragment: the fragment never counts, and the query counts
      only when it and the path are both non-empty. */
  lemma {:induction false} KeyOfComposed(service: string, path: string, query: Option<string>, fragment: Option<string>)
    requires '?' !in path && '#' !in path
    requires query.Some? ==> '#' !in query.value
    requires SimpleRelativeUrl(Compose(path, query, fragment))
    ensures CreateKey(service, Compose(path, query, fragment))
      == service + "-" + path + (if path != "" && query.GetOr("") != "" then "?" + query.value else "")
  {
    SplitCompose(path, query, fragment);
  }

  /** The query as the key keeps it: dropped when the path is empty. */
  function KeptQuery(url: string): string {
    if Path(url) != "" then Query(url) else ""
  }

  lemma KeyLayout(service: string, url: string)
    requires SimpleRelativeUrl(url)
    ensures CreateKey(service, url)
      == (service + "-") + (Path(url) + (if KeptQuery(url) != "" then "?" + KeptQuery(url) else ""))
  {
  }

  /** A string that lacks `c`, followed by one that is empty or starts
      with `c`, splits back apart at the first `c`. */
  lemma SplitUnique(p1: string, t1: string, p2: string, t2: string, c: char)
    requires c !in p1 && c !in p2
    requires (t1 == [] || t1[0] == c) && (t2 == [] || t2[0] == c)
    ensures p1 + t1 == p2 + t2 ==> p1 == p2 && t1 == t2
  {
    FindAfter(p1, t1, c);
    FindAfter(p2, t2, c);
    assert Find(t1, c) == 0 && Find(t2, c) == 0;
    assert (p1 + t1)[..|p1|] == p1 && (p1 + t1)[|p1|..] == t1;
    assert (p2 + t2)[..|p2|] == p2 && (p2 + t2)[|p2|..] == t2;
  }

  /** Two URLs share a key under one service only when they have the same
      path and the key keeps the same query: a key names one request up to
      its fragment and an empty query. */
  lemma {:induction false} KeyDeterminesPathAndQuery(service: string, u1: string, u2: string)
    requires SimpleRelativeUrl(u1) && SimpleRelativeUrl(u2)
    requires CreateKey(service, u1) == CreateKey(service, u2)
    ensures Path(u1) == Path(u2)
    ensures KeptQuery(u1) == KeptQuery(u2)
  {
    var p1, p2 := Path(u1), Path(u2);
    var t1 := if KeptQuery(u1) != "" then "?" + KeptQuery(u1) else "";
    var t2 := if KeptQuery(u2) != "" then "?" + KeptQuery(u2) else "";
    KeyLayout(service, u1);
    KeyLayout(service, u2);
    var n := |service| + 1;
    assert p1 + t1 == CreateKey(service, u1)[n..];
    assert p2 + t2 == CreateKey(service, u2)[n..];
    SplitUnique(p1, t1, p2, t2, '?');
    assert t1 != "" ==> KeptQuery(u1) == t1[1..];
    assert t2 != "" ==> KeptQuery(u2) == t2[1..];
  }

  /** Services without a hyphen never share a key: the service ends at the
      key's first hyphen. */
  lemma {:induction false} ServicesSeparateKeys(s1: string, s2: string, u1: string, u2: string)
    requires '-' !in s1 && '-' !in s2 && s1 != s2
    requires SimpleRelativeUrl(u1) && SimpleRelativeUrl(u2)
    ensures CreateKey(s1, u1) != CreateKey(s2, u2)
  {
    var k1, k2 := CreateKey(s1, u1), CreateKey(s2, u2);
    var r1, r2 := k1[|s1|..], k2[|s2|..];
    assert k1 == s1 + r1 && r1[0] == '-';
    assert k2 == s2 + r2 && r2[0] == '-';
    SplitUnique(s1, r1, s2, r2, '-');
  }

  // ----- The stored record

  /** The header dict `_format_data` builds from a dict of headers: each
      name, in order, with the value `getheader(name)` gives for it. */
  function FormattedHeaders(e: Headers): Headers {
    seq(|e|, i requires 0 <= i < |e| => (e[i].0, HeaderValue(e, e[i].0, Str(""))))
  }

  /** The header part of `_format_data`'s record, or the exception the loop
      over the headers raises. `None` headers give an empty dict. */
  function FormatHeaders(headers: Value): Outcome<Headers> {
    match headers
    case Null => Returned([])
    case Dict(e) => Returned(FormattedHeaders(e))
    case Str(s) => if s == "" then Returned([]) else Raised(TypeError)
    case List(items) =>
      if items == [] then Returned([])
      else if items[0].Str? then Raised(TypeError)
      else Raised(AttributeError)
    case _ => Raised(TypeError)
  }

  /** `{"status": ..., "headers": ..., "data": ...}` */
  function Record(status: Value, headers: Headers, data: Value): Value {
    Dict([("status", status), ("headers", Dict(headers)), ("data", data)])
  }

  /** The formatted headers answer every lookup as the original headers do. */
  lemma {:induction false} FormattedHeadersLookup(e: Headers, name: string, default: Value)
    ensures HeaderValue(FormattedHeaders(e), name, default) == HeaderValue(e, name, default)
  {
    var f := FormattedHeaders(e);
    var k := HeaderIndex(e, name);
    assert IsFirstMatch(f, name, k) by {
      assert forall j | 0 <= j < |e| :: f[j].0 == e[j].0;
    }
    FirstMatchUnique(f, name, k, HeaderIndex(f, name));
    if k < |e| {
      var m := HeaderIndex(e, e[k].0);
      assert IsFirstMatch(e, e[k].0, k);
      FirstMatchUnique(e, e[k].0, k, m);
    }
  }

  /** A response rebuilt from the record `_format_data` stores has the
      status and data of the original, and each header lookup gives what it
      gives on the original's headers. */
  lemma {:induction false} RecordRoundTrip(status: Value, e: Headers, data: Value, name: string, default: Value)
    ensures var kwargs := Record(status, FormattedHeaders(e), data).entries;
      && DictLookup(kwargs, "status").GetOr(Null) == status
      && DictLookup(kwargs, "data").GetOr(Null) == data
      && LookupHeader(DictLookup(kwargs, "headers").GetOr(Dict([])), name, default)
         == LookupHeader(Dict(e), name, default)
  {
    var f := FormattedHeaders(e);
    var kwargs := Record(status, f, data).entries;
    assert KeyIndex(kwargs, "status") == 0;
    assert KeyIndex(kwargs, "headers") == 1;
    assert kwargs[2..][0].0 == "data" && kwargs[1..][0].0 != "data" by {
      assert "headers"[0] != "data"[0];
    }
    assert KeyIndex(kwargs[1..], "data") == 1;
    assert KeyIndex(kwargs, "data") == 2 by {
      assert "status"[0] != "data"[0];
    }
    ScanDictFrom(f, 0, name, default);
    ScanDictFrom(e, 0, name, default);
    FormattedHeadersLookup(e, name, default);
  }

  /** On a dict, `getheader` finds the first header named `name` ignoring case. */
  lemma LookupHeaderOnDict(e: Headers, name: string, default: Value)
    ensures LookupHeader(Dict(e), name, default) == Returned(HeaderValue(e, name, default))
  {
    assert KeyItems(e)[0..] == KeyItems(e);
    ScanDictFrom(e, 0, name, default);
  }

  /** On a str or a list, `getheader` of the first item's own name fails:
      the item matches itself and is used as an index. */
  lemma LookupFirstItemFails(headers: Value, name: string, default: Value)
    requires !headers.Dict? && Iter(headers).Some?
    requires |Iter(headers).value| > 0 && Iter(headers).value[0] == Str(name)
    ensures LookupHeader(headers, name, default) == Raised(TypeError)
  {
  }

  /** Appending the next formatted header extends the formatted prefix. */
  lemma FormatStep(e: Headers, i: nat)
    requires DistinctKeys(e) && i < |e|
    ensures DistinctKeys(FormattedHeaders(e)[..i])
    ensures forall j | 0 <= j < i :: FormattedHeaders(e)[..i][j].0 != e[i].0
    ensures FormattedHeaders(e)[..i] + [(e[i].0, HeaderValue(e, e[i].0, Str("")))] == FormattedHeaders(e)[..i + 1]
  {
  }

  /** `_format_data`: the record of the response's status, headers and
      data. The headers are gathered one by one through `getheader`. */
  method FormatData(response: CachedHTTPResponse) returns (r: Outcome<Value>)
    requires response.headers.Dict? ==> DistinctKeys(response.headers.entries)
    ensures r == match FormatHeaders(response.headers)
      case Returned(h) => Returned(Record(response.status, h, response.data))
      case Raised(e) => Raised(e)
    ensures response.headers.Null? ==> r == Returned(Record(response.status, [], response.data))
    ensures response.headers.Dict? ==> (
      && r.Returned?
      && var e, f := response.headers.entries, r.value.entries[1].1.entries;
         && |f| == |e|
         && forall i | 0 <= i < |e| :: f[i].0 == e[i].0 && Returned(f[i].1) == response.GetHeader(e[i].0))
  {
    if response.headers.Dict? {
      var e := response.headers.entries;
      forall i | 0 <= i < |e| ensures Returned(FormattedHeaders(e)[i].1) == response.GetHeader(e[i].0) {
        LookupHeaderOnDict(e, e[i].0, Str(""));
      }
    }
    var headers: Headers := [];
    if response.headers != Null {
      var items := Iter(response.headers);
      if items.None? {
        return Raised(TypeError);
      }
      var i := 0;
      while i < |items.value|
        invariant 0 <= i <= |items.value|
        invariant response.headers.Dict? ==> headers == FormattedHeaders(response.headers.entries)[..i]
        invariant !response.headers.Dict? ==> i == 0 && headers == []
      {
        var item := items.value[i];
        if !item.Str? {
          // `val.lower()` inside getheader
          return Raised(AttributeError);
        }
        var v := response.GetHeader(item.s);
        if !response.headers.Dict? {
          LookupFirstItemFails(response.headers, item.s, Str(""));
          return Raised(v.error);
        }
        var e := response.headers.entries;
        LookupHeaderOnDict(e, item.s, Str(""));
        FormatStep(e, i);
        headers := DictSet(headers, item.s, v.value);
        i := i + 1;
      }
      if response.headers.Dict? {
        assert headers == FormattedHeaders(response.headers.entries);
      }
    }
    r := Returned(Record(response.status, headers, response.data));
  }

  // ----- The cache facade

  /** `get_cache_expiration_time`: seconds until expiry, `0` for no expiry,
      `None` for "do not cache", per service, URL and response status (`None`
      before a response exists). */
  type Policy = (string, string, Value) -> Option<int>

  /** The policy `RestclientGCSClient` defines: the configured default
      expiry, or `0` when none is configured, whatever the request. */
  function DefaultExpirationTime(settings: Settings, service: string, url: string, status: Value): (r: Option<int>)
    ensures r.Some?
    ensures settings.defaultExpiry.None? ==> r == Some(0)
    ensures settings.defaultExpiry.Some? ==> r == settings.defaultExpiry
  {
    Some(settings.defaultExpiry.GetOr(0))
  }

  class RestclientGCSClient {
    /** The `GCSClient` this client extends. */
    const shim: GCSClient
    /** `get_cache_expiration_time`, which subclasses override. */
    const policy: Policy

    constructor (settings: Settings, bucket: Bucket, policy: Policy)
      ensures fresh(shim) && shim.settings == settings && shim.bucket == bucket
      ensures shim.client.None? && shim.Valid()
      ensures this.policy == policy
    {
      shim := new GCSClient(settings, bucket);
      this.policy := policy;
    }

    /** `RestclientGCSClient()` with the policy it defines itself. */
    constructor Default(settings: Settings, bucket: Bucket)
      ensures fresh(shim) && shim.settings == settings && shim.bucket == bucket
      ensures shim.client.None? && shim.Valid()
      ensures forall service, url, status :: policy(service, url, status) == DefaultExpirationTime(settings, service, url, status)
    {
      shim := new GCSClient(settings, bucket);
      policy := (service, url, status) => DefaultExpirationTime(settings, service, url, status);
    }

    /** `getCache`: with a "do not cache" policy, nothing and no storage
        access; otherwise one `get` of the derived key through the wrapper,
        a truthy record wrapped as a response, a falsy one a miss.
        `Some(r)` stands for the returned dict `{"response": r}`, `None` for
        the implicit `None`. */
    method GetCache(service: string, url: string, fault: Option<Exception>, loads: Loads)
      returns (r: Outcome<Option<CachedHTTPResponse>>)
      requires shim.Valid()
      requires policy(service, url, Null).Some? ==> SimpleRelativeUrl(url)
      modifies shim, shim.bucket
      ensures shim.Valid()
      ensures shim.bucket.blobs == old(shim.bucket.blobs) && shim.bucket.requests == old(shim.bucket.requests)
      ensures policy(service, url, Null).None? ==> r == Returned(None) && shim.client == old(shim.client)
      ensures policy(service, url, Null).Some? ==>
        shim.client.Some? && (old(shim.client).Some? ==> shim.client == old(shim.client))
      ensures policy(service, url, Null).Some? ==>
        var o := Shield(Download(old(shim.bucket.blobs), CreateKey(service, url), fault, loads));
        && (o.Raised? ==> r == Raised(o.error))
        && (o.Returned? && !Truthy(o.value) ==> r == Returned(None))
        && (o.Returned? && Truthy(o.value) && !o.value.Dict? ==> r == Raised(TypeError))
        && (o.Returned? && Truthy(o.value) && o.value.Dict? ==>
              r.Returned? && r.value.Some? && fresh(r.value.value) && r.value.value.BuiltFrom(o.value.entries))
      ensures policy(service, url, Null).Some? && fault.Some? && fault.value in {GoogleApiError, GaiError} ==>
        r == Returned(None)
    {
      var expire := policy(service, url, Null);
      if expire.None? {
        return Returned(None);
      }
      var data := shim.Call(GetOp(CreateKey(service, url), loads), fault);
      if data.Raised? {
        return Raised(data.error);
      }
      if !Truthy(data.value) {
        return Returned(None);
      }
      if !data.value.Dict? {
        // `**data` needs a mapping
        return Raised(TypeError);
      }
      var response := new CachedHTTPResponse(data.value.entries);
      r := Returned(Some(response));
    }

    /** `deleteCache`: `delete` of exactly the derived key through the
        wrapper. */
    method DeleteCache(service: string, url: string, fault: Option<Exception>) returns (r: Outcome<Value>)
      requires shim.Valid()
      requires SimpleRelativeUrl(url)
      modifies shim, shim.bucket
      ensures shim.Valid()
      ensures shim.client.Some? && (old(shim.client).Some? ==> shim.client == old(shim.client))
      ensures r.Raised? <==>
        || (fault.Some? && !IsGoogleApiError(fault.value) && fault.value != GaiError)
        || (fault.None? && CreateKey(service, url) !in old(shim.bucket.blobs))
      ensures r.Raised? && fault.Some? ==> r.error == fault.value
      ensures fault.None? && CreateKey(service, url) !in old(shim.bucket.blobs) ==> r == Raised(AttributeError)
      ensures r.Returned? ==> r.value == Null
      ensures fault.None? ==> shim.bucket.blobs == old(shim.bucket.blobs) - {CreateKey(service, url)}
      ensures fault.None? && CreateKey(service, url) in old(shim.bucket.blobs) ==>
        shim.bucket.requests == old(shim.bucket.requests) + [DeleteBlob(CreateKey(service, url), shim.client.value.timeout)]
      ensures fault.Some? || CreateKey(service, url) !in old(shim.bucket.blobs) ==>
        shim.bucket.blobs == old(shim.bucket.blobs) && shim.bucket.requests == old(shim.bucket.requests)
    {
      r := shim.Call(DeleteOp(CreateKey(service, url)), fault);
    }

    /** `updateCache` (also `processResponse`): with a "do not cache" policy
        nothing happens; otherwise `set` of the derived key and the formatted
        record, directly on the bucket client. The record is a dict, neither
        a str nor a StringIO, so it is never uploaded. A `GoogleAPIError` or
        `ConnectionError` is logged and swallowed. */
    method UpdateCache(service: string, url: string, response: CachedHTTPResponse, fault: Option<Exception>)
      returns (r: Outcome<Value>)
      requires shim.Valid()
      requires policy(service, url, response.status).Some? ==> SimpleRelativeUrl(url)
      requires response.headers.Dict? ==> DistinctKeys(response.headers.entries)
      modifies shim, shim.bucket
      ensures shim.Valid()
      ensures shim.bucket.blobs == old(shim.bucket.blobs) && shim.bucket.requests == old(shim.bucket.requests)
      ensures r.Returned? ==> r.value == Null
      ensures policy(service, url, response.status).None? ==> r == Returned(Null) && shim.client == old(shim.client)
      ensures policy(service, url, response.status).Some? && FormatHeaders(response.headers).Raised? ==>
        r == Raised(FormatHeaders(response.headers).error) && shim.client == old(shim.client)
      ensures policy(service, url, response.status).Some? && FormatHeaders(response.headers).Returned? ==>
        && shim.client.Some? && (old(shim.client).Some? ==> shim.client == old(shim.client))
        && (r.Raised? <==> !shim.client.value.replace && fault.Some?
                           && !IsGoogleApiError(fault.value) && fault.value != ConnectionError)
        && (r.Raised? ==> r.error == fault.value)
    {
      var expire := policy(service, url, response.status);
      if expire.None? {
        return Returned(Null);
      }
      var key := CreateKey(service, url);
      var data := FormatData(response);
      if data.Raised? {
        return Raised(data.error);
      }
      var client := shim.Client();
      var o := client.Set(key, Other(data.value), fault);
      if o.Raised? && (IsGoogleApiError(o.error) || o.error == ConnectionError) {
        // logged with the URL
        r := Returned(Null);
      } else {
        r := o;
      }
    }
  }
}
