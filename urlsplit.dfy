/**
 * The part of `urllib.parse.urlparse` that key derivation depends on, for
 * relative references with no scheme and no authority. Following section 3
 * of RFC 3986, the path (3.3) ends at the first '?' or '#', the query (3.4)
 * lies between that '?' and the next '#', and the fragment (3.5) is the rest.
 * Python finds these by splitting off the fragment at the first '#' and then
 * the query at the first '?'; `Path` and `Query` do the same.
 */
module UrlSplit {

  import opened Py

  /** The index of the first `c` in `s`, or `|s|` when there is none. */
  function Find(s: string, c: char): (k: nat)
    ensures k <= |s|
    ensures forall j | 0 <= j < k :: s[j] != c
    ensures k < |s| ==> s[k] == c
  {
    if s == [] then 0
    else if s[0] == c then 0
    else 1 + Find(s[1..], c)
  }

  /** Searching a concatenation whose first part lacks `c` lands in the second part. */
  lemma {:induction false} FindAfter(a: string, b: string, c: char)
    requires c !in a
    ensures Find(a + b, c) == |a| + Find(b, c)
    decreases |a|
  {
    if a == [] {
      assert a + b == b;
    } else {
      assert (a + b)[0] == a[0] != c;
      assert (a + b)[1..] == a[1..] + b;
      assert c !in a[1..] by { assert forall j | 0 <= j < |a[1..]| :: a[1..][j] == a[j + 1]; }
      FindAfter(a[1..], b, c);
    }
  }

  /** The URL with its fragment split off (`url.split('#', 1)[0]`). */
  function WithoutFragment(url: string): string {
    url[..Find(url, '#')]
  }

  /** `urlparse(url).path` for a relative reference. */
  function Path(url: string): (p: string)
    ensures '?' !in p && '#' !in p
    ensures |p| <= |url| && p == url[..|p|]
  {
    var u := WithoutFragment(url);
    var p := u[..Find(u, '?')];
    assert forall j | 0 <= j < |p| :: p[j] == u[j] != '?' && u[j] == url[j] != '#';
    p
  }

  /** `urlparse(url).query` for a relative reference: empty when the URL has
      no '?' before its fragment. */
  function Query(url: string): (q: string)
    ensures '#' !in q
  {
    var u := WithoutFragment(url);
    var i := Find(u, '?');
    var q := if i < |u| then u[i + 1..] else "";
    assert forall j | 0 <= j < |q| :: q[j] == u[i + 1 + j] == url[i + 1 + j] != '#';
    q
  }

  /** A relative reference that `urlparse` splits exactly as `Path` and `Query`
      do: no characters Python strips or removes before parsing (leading
      control characters and spaces, tab, carriage return, line feed), no
      ';' (Python would cut `;params` off the last path segment), no "//"
      authority, and no ':' that Python could read as ending a scheme. */
  predicate SimpleRelativeUrl(url: string) {
    && ';' !in url && '\t' !in url && '\r' !in url && '\n' !in url
    && (|url| > 0 ==> url[0] > ' ')
    && !(|url| >= 2 && url[0] == '/' && url[1] == '/')
    && ((|url| > 0 && url[0] == '/') || ':' !in url)
  }

  /** The relative reference with the given parts: `path`, then `?query`
      when there is a query and `#fragment` when there is a fragment. Unlike
      `urlunsplit`, which drops an empty query or fragment, `Some("")` keeps
      its `?` or `#`, so every way of writing a reference can be built. */
  function Compose(path: string, query: Option<string>, fragment: Option<string>): string {
    path
    + (match query case Some(q) => "?" + q case None => "")
    + (match fragment case Some(f) => "#" + f case None => "")
  }

  /** Splitting a composed URL gives back its path and query: the split
      inverts composition whenever the path holds no '?' or '#' and the
      query no '#'. */
  lemma {:induction false} SplitCompose(path: string, query: Option<string>, fragment: Option<string>)
    requires '?' !in path && '#' !in path
    requires query.Some? ==> '#' !in query.value
    ensures Path(Compose(path, query, fragment)) == path
    ensures Query(Compose(path, query, fragment)) == query.GetOr("")
  {
    var q := match query case Some(q) => "?" + q case None => "";
    var f := match fragment case Some(f) => "#" + f case None => "";
    var url := Compose(path, query, fragment);
    assert url == (path + q) + f;
    assert '#' !in path + q by {
      assert forall j | 0 <= j < |path + q| :: (path + q)[j] == if j < |path| then path[j] else q[j - |path|];
    }
    FindAfter(path + q, f, '#');
    if f != "" {
      assert f[0] == '#';
    }
    assert Find(f, '#') == 0;
    assert WithoutFragment(url) == path + q;
    FindAfter(path, q, '?');
    if q != "" {
      assert q[0] == '?';
    }
    assert Find(q, '?') == 0;
    assert (path + q)[..|path|] == path;
    if query.Some? {
      assert (path + q)[|path| + 1..] == query.value;
    }
  }
}
