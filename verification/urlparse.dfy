/**
 * The part of Python 2.7's `urlparse` module the uploader relies on: `urlsplit` of a URL into
 * its scheme, network location and path, `urlunsplit` back, and the two shapes of `urljoin`
 * the uploader calls, with an absolute path and with a query.
 */
module UrlParse {
  import opened Wrappers

  /** The schemes `urljoin` resolves against a base; with any other the reference is returned as it is. */
  const UsesRelative: seq<string> := [
    "ftp", "http", "gopher", "nntp", "imap", "wais", "file", "https", "shttp", "mms",
    "prospero", "rtsp", "rtspu", "", "sftp", "svn", "svn+ssh"]

  /**
   * The schemes whose URLs carry a network location after `//`: those resolved against, and six
   * more (Python lists the same 23 in another order).
   */
  const UsesNetloc: seq<string> := UsesRelative + ["telnet", "snews", "rsync", "nfs", "git", "git+ssh"]

  /** The schemes whose last path segment may carry `;params`. */
  const UsesParams: seq<string> := [
    "ftp", "hdl", "prospero", "http", "imap", "https", "shttp", "rtsp", "rtspu", "sip", "sips",
    "mms", "", "sftp", "tel"]

  /** `s in list` on a Python list of schemes. */
  predicate Listed(list: seq<string>, s: string) {
    list != [] && (list[0] == s || Listed(list[1..], s))
  }

  lemma {:induction false} ListedIsIn(list: seq<string>, s: string)
    ensures Listed(list, s) <==> s in list
  {
    if list != [] {
      ListedIsIn(list[1..], s);
      assert list == [list[0]] + list[1..];
    }
  }

  /** The item at any index is listed. */
  lemma {:induction false} ListedAt(list: seq<string>, i: nat)
    requires i < |list|
    ensures Listed(list, list[i])
  {
    if i > 0 {
      ListedAt(list[1..], i - 1);
      assert list[1..][i - 1] == list[i];
    }
  }

  /** The empty scheme is resolved against, has a network location and uses params. */
  lemma EmptySchemeListed()
    ensures Listed(UsesRelative, "") && Listed(UsesNetloc, "") && Listed(UsesParams, "")
  {
    ListedAt(UsesRelative, 13);
    assert UsesRelative[13] == "";
    RelativeUsesNetloc("");
    ListedAt(UsesParams, 12);
    assert UsesParams[12] == "";
  }

  /** A scheme listed in a list is listed in any list that starts with it. */
  lemma {:induction false} ListedInPrefix(a: seq<string>, b: seq<string>, s: string)
    requires Listed(a, s)
    ensures Listed(a + b, s)
  {
    assert (a + b)[0] == a[0];
    if a[0] != s {
      ListedInPrefix(a[1..], b, s);
      assert (a + b)[1..] == a[1..] + b;
    }
  }

  /** Every scheme `urljoin` resolves against has a network location. */
  lemma RelativeUsesNetloc(scheme: string)
    requires Listed(UsesRelative, scheme)
    ensures Listed(UsesNetloc, scheme)
  {
    ListedInPrefix(UsesRelative, ["telnet", "snews", "rsync", "nfs", "git", "git+ssh"], scheme);
  }

  // ---------------------------------------------------------------------------
  // Characters
  // ---------------------------------------------------------------------------

  /** The characters of a scheme: ASCII letters, digits, `+`, `-` and `.`. */
  predicate IsSchemeChar(c: char) {
    ('a' <= c <= 'z') || ('A' <= c <= 'Z') || ('0' <= c <= '9') || c == '+' || c == '-' || c == '.'
  }

  predicate AllSchemeChars(s: string) {
    forall i :: 0 <= i < |s| ==> IsSchemeChar(s[i])
  }

  predicate AllDigits(s: string) {
    forall i :: 0 <= i < |s| ==> '0' <= s[i] <= '9'
  }

  predicate IsLower(s: string) {
    forall i :: 0 <= i < |s| ==> !('A' <= s[i] <= 'Z')
  }

  /** `c.lower()` for one byte: an ASCII capital becomes the small letter, anything else stays. */
  function LowerChar(c: char): (d: char)
    ensures !('A' <= d <= 'Z')
    ensures !('A' <= c <= 'Z') ==> d == c
    ensures 'A' <= c <= 'Z' ==> d as int == c as int + 32
  {
    if 'A' <= c <= 'Z' then (c as int + 32) as char else c
  }

  /** `s.lower()` on a byte string. */
  function Lower(s: string): (t: string)
    ensures |t| == |s| && IsLower(t)
    ensures forall i :: 0 <= i < |s| ==> t[i] == LowerChar(s[i])
  {
    if s == [] then [] else [LowerChar(s[0])] + Lower(s[1..])
  }

  lemma LowerOfLower(s: string)
    requires IsLower(s)
    ensures Lower(s) == s
  {
    assert forall i :: 0 <= i < |s| ==> Lower(s)[i] == s[i];
  }

  /** Index of the first `c`, or the length. */
  function Find(s: string, c: char): (i: nat)
    ensures i <= |s| && (i < |s| ==> s[i] == c)
    ensures forall j :: 0 <= j < i ==> s[j] != c
  {
    if s == [] || s[0] == c then 0 else 1 + Find(s[1..], c)
  }

  /** Index of the first `/`, `?` or `#`, or the length: where a network location stops. */
  function PathStart(s: string): (i: nat)
    ensures i <= |s|
    ensures forall j :: 0 <= j < i ==> s[j] != '/' && s[j] != '?' && s[j] != '#'
    ensures i < |s| ==> s[i] == '/' || s[i] == '?' || s[i] == '#'
  {
    if s == [] || s[0] == '/' || s[0] == '?' || s[0] == '#' then 0 else 1 + PathStart(s[1..])
  }

  /** Index of the first `?` or `#`, or the length: where a path stops. */
  function QueryStart(s: string): (i: nat)
    ensures i <= |s|
    ensures forall j :: 0 <= j < i ==> s[j] != '?' && s[j] != '#'
    ensures i < |s| ==> s[i] == '?' || s[i] == '#'
  {
    if s == [] || s[0] == '?' || s[0] == '#' then 0 else 1 + QueryStart(s[1..])
  }

  /** Index just past the last `/`, or 0: where the last path segment starts. */
  function LastSegmentStart(p: string): (i: nat)
    ensures i <= |p|
    ensures forall j :: i <= j < |p| ==> p[j] != '/'
  {
    if p == [] then 0 else if p[|p| - 1] == '/' then |p| else LastSegmentStart(p[..|p| - 1])
  }

  // ---------------------------------------------------------------------------
  // urlsplit
  // ---------------------------------------------------------------------------

  /**
   * The length of the scheme `urlsplit` takes from the head of a URL: the text before the
   * first `:`, when it is non-empty and made of scheme characters and what follows the `:`
   * is not a port number (a non-empty run of digits); the last test is skipped for `http`.
   */
  function SchemeLength(url: string): (n: Option<nat>)
    ensures n.Some? ==> 0 < n.value < |url| && url[n.value] == ':' && AllSchemeChars(url[..n.value])
    ensures n.Some? ==> forall j :: 0 <= j < n.value ==> url[j] != ':'
  {
    var i := Find(url, ':');
    if 0 < i < |url| && AllSchemeChars(url[..i])
       && (url[..i] == "http" || url[i + 1..] == [] || !AllDigits(url[i + 1..]))
    then Some(i)
    else None
  }

  /** `urlsplit(url).scheme`: the scheme in lower case, or empty. */
  function Scheme(url: string): (s: string)
    ensures IsLower(s) && AllSchemeChars(s)
  {
    match SchemeLength(url)
    case None => ""
    case Some(n) => Lower(url[..n])
  }

  /** What follows the scheme and its `:`. */
  function AfterScheme(url: string): (r: string)
    ensures |r| <= |url| && r == url[|url| - |r|..]
  {
    match SchemeLength(url)
    case None => url
    case Some(n) => url[n + 1..]
  }

  /** The network location at the head of what follows the scheme: after `//`, up to the first `/`, `?` or `#`. */
  function NetlocOf(rest: string): (h: string)
    ensures forall i :: 0 <= i < |h| ==> h[i] != '/' && h[i] != '?' && h[i] != '#'
  {
    if StartsWithDoubleSlash(rest) then rest[2..][..PathStart(rest[2..])] else ""
  }

  /** What follows that network location, up to the query or the fragment. */
  function PathOf(rest: string): (p: string)
    ensures forall i :: 0 <= i < |p| ==> p[i] != '?' && p[i] != '#'
  {
    var r := if StartsWithDoubleSlash(rest) then rest[2..][PathStart(rest[2..])..] else rest;
    r[..QueryStart(r)]
  }

  /** `urlsplit(url).netloc`. */
  function Netloc(url: string): (h: string)
    ensures forall i :: 0 <= i < |h| ==> h[i] != '/' && h[i] != '?' && h[i] != '#'
  {
    NetlocOf(AfterScheme(url))
  }

  /** `urlsplit(url).path`. */
  function Path(url: string): (p: string)
    ensures forall i :: 0 <= i < |p| ==> p[i] != '?' && p[i] != '#'
  {
    PathOf(AfterScheme(url))
  }

  /**
   * The path of `urlparse(url)` with its params written back, as `urlunparse` does: for a
   * scheme that uses params, a `;` that ends the path and is the first `;` of its last
   * segment is lost, because the empty params after it are not written back.
   */
  function PathWithParams(url: string): (p: string)
    ensures p == Path(url) || (Path(url) != [] && p == Path(url)[..|Path(url)| - 1])
    ensures ';' !in Path(url) ==> p == Path(url)
  {
    var p := Path(url);
    if Listed(UsesParams, Scheme(url)) && p != [] && p[|p| - 1] == ';' && ';' !in p[LastSegmentStart(p)..|p| - 1]
    then p[..|p| - 1]
    else p
  }

  /**
   * `urlsplit` raises `ValueError("Invalid IPv6 URL")` when the network location holds a `[`
   * without a `]`, or a `]` without a `[`.
   */
  predicate SplitRaises(url: string) {
    ('[' in Netloc(url)) != (']' in Netloc(url))
  }

  // ---------------------------------------------------------------------------
  // urlunsplit and urljoin
  // ---------------------------------------------------------------------------

  /**
   * `urlunsplit((scheme, netloc, path, '', ''))`: `//` and the network location go in front
   * of the path when there is a network location, or when the scheme uses one and the path
   * does not already start with `//`; then the scheme and its `:`.
   */
  function Unsplit(scheme: string, netloc: string, path: string): (u: string)
    ensures scheme == "" && netloc == "" ==> u == path
    ensures scheme == "" && netloc != "" && (path == [] || path[0] == '/') ==> u == "//" + netloc + path
    ensures scheme != "" && Listed(UsesNetloc, scheme) && (path == [] || path[0] == '/') && !StartsWithDoubleSlash(path) ==>
      u == scheme + "://" + netloc + path
  {
    var rest :=
      if netloc != "" || (scheme != "" && Listed(UsesNetloc, scheme) && !StartsWithDoubleSlash(path))
      then "//" + netloc + (if path != [] && path[0] != '/' then "/" + path else path)
      else path;
    if scheme != "" then scheme + ":" + rest else rest
  }

  predicate StartsWithDoubleSlash(s: string) {
    |s| >= 2 && s[..2] == "//"
  }

  /**
   * A path `urljoin` takes as absolute and leaves as it is: a `/` not followed by another,
   * with no `;`, `?` or `#`.
   */
  predicate IsPlainAbsolutePath(path: string) {
    |path| >= 1 && path[0] == '/' && !StartsWithDoubleSlash(path)
    && ';' !in path && '?' !in path && '#' !in path
  }

  /**
   * `urljoin(base, path)` for a plain absolute path, when `base` does not raise: a base whose
   * scheme `urljoin` does not resolve against gives the path alone; otherwise the base keeps
   * its lower-cased scheme and its network location, and loses its path, query and fragment.
   */
  function JoinAbsolutePath(base: string, path: string): (u: string)
    requires IsPlainAbsolutePath(path)
    ensures !Listed(UsesRelative, Scheme(base)) ==> u == path
    ensures Listed(UsesRelative, Scheme(base)) && Scheme(base) != "" ==> u == Scheme(base) + "://" + Netloc(base) + path
    ensures Scheme(base) == "" && Netloc(base) == "" ==> u == path
    ensures Scheme(base) == "" && Netloc(base) != "" ==> u == "//" + Netloc(base) + path
  {
    EmptySchemeListed();
    var scheme := Scheme(base);
    if !Listed(UsesRelative, scheme) then path
    else
      RelativeUsesNetloc(scheme);
      Unsplit(scheme, Netloc(base), path)
  }

  /**
   * The text `urljoin(base, '?' + query)` puts before the `?`: nothing when the scheme of
   * `base` is not resolved against; otherwise `base` without its query and fragment, written
   * back from its parts.
   */
  function QueryBase(base: string): string {
    var scheme := Scheme(base);
    if !Listed(UsesRelative, scheme) then "" else Unsplit(scheme, Netloc(base), PathWithParams(base))
  }

  /** `urljoin(base, '?' + query)` for a non-empty query without a fragment. */
  function JoinQuery(base: string, query: string): (u: string)
    requires query != [] && '#' !in query
    ensures |u| == |QueryBase(base)| + 1 + |query|
    ensures StartsWithQueryOf(u, base) && u[|QueryBase(base)| + 1..] == query
  {
    QueryBase(base) + "?" + query
  }

  lemma JoinQueryAppends(base: string, query: string)
    requires query != [] && '#' !in query
    ensures JoinQuery(base, query) == QueryBase(base) + "?" + query
  {
  }

  predicate StartsWithQueryOf(u: string, base: string) {
    |QueryBase(base)| < |u| && u[..|QueryBase(base)|] == QueryBase(base) && u[|QueryBase(base)|] == '?'
  }

  // ---------------------------------------------------------------------------
  // Splitting what urljoin builds
  // ---------------------------------------------------------------------------

  /** A plain absolute path has no scheme and no network location, and is its own path. */
  lemma SplitOfPath(path: string)
    requires IsPlainAbsolutePath(path)
    ensures Scheme(path) == "" && Netloc(path) == "" && PathWithParams(path) == path
  {
    NoSchemeBeforeSlash(path);
    RestOfPath(path);
  }

  /** `//netloc/path` has no scheme, and splits back into its network location and path. */
  lemma SplitOfNetloc(netloc: string, path: string)
    requires forall i :: 0 <= i < |netloc| ==> netloc[i] != '/' && netloc[i] != '?' && netloc[i] != '#'
    requires path == [] || IsPlainAbsolutePath(path)
    ensures var u := "//" + netloc + path;
      Scheme(u) == "" && Netloc(u) == netloc && PathWithParams(u) == path
  {
    NoSchemeBeforeSlash("//" + netloc + path);
    RestOfAuthority(netloc, path);
  }

  /**
   * `scheme://netloc/path` splits back into the lower-cased scheme, the network location and
   * the path.
   */
  lemma SplitOfOrigin(scheme: string, netloc: string, path: string)
    requires scheme != [] && AllSchemeChars(scheme)
    requires forall i :: 0 <= i < |netloc| ==> netloc[i] != '/' && netloc[i] != '?' && netloc[i] != '#'
    requires path == [] || IsPlainAbsolutePath(path)
    ensures var u := scheme + "://" + netloc + path;
      Scheme(u) == Lower(scheme) && Netloc(u) == netloc && Path(u) == path && PathWithParams(u) == path
  {
    var u := scheme + "://" + netloc + path;
    var n := |scheme|;
    assert u[..n] == scheme && u[n] == ':' && u[n + 1] == '/';
    assert u[n + 1..] == "//" + netloc + path;
    SchemeAt(u, n);
    RestOfAuthority(netloc, path);
  }

  /** A URL that starts with `/` has no scheme. */
  lemma NoSchemeBeforeSlash(url: string)
    requires |url| > 0 && url[0] == '/'
    ensures SchemeLength(url) == None && Scheme(url) == "" && AfterScheme(url) == url
  {
    var i := Find(url, ':');
    if 0 < i < |url| {
      assert !IsSchemeChar(url[..i][0]);
    }
  }

  /** A URL whose first `:` ends a run of scheme characters and is followed by `/` has that scheme. */
  lemma SchemeAt(url: string, n: nat)
    requires 0 < n && n + 1 < |url| && AllSchemeChars(url[..n]) && url[n] == ':' && url[n + 1] == '/'
    ensures SchemeLength(url) == Some(n) && Scheme(url) == Lower(url[..n]) && AfterScheme(url) == url[n + 1..]
  {
    forall j | 0 <= j < n
      ensures url[j] != ':'
    {
      assert IsSchemeChar(url[..n][j]);
    }
    FindAt(url, ':', n);
    assert !AllDigits(url[n + 1..]) by {
      assert url[n + 1..][0] == '/';
    }
  }

  /**
   * `host:port` with an all-digit port is not split at its `:`: it has no scheme and no
   * network location (unless the host is `http`, which Python 2.7 always takes as a scheme).
   */
  lemma HostPortHasNoScheme(host: string, port: string)
    requires host != [] && AllSchemeChars(host) && host != "http"
    requires port != [] && AllDigits(port)
    ensures Scheme(host + ":" + port) == "" && Netloc(host + ":" + port) == ""
  {
    var url := host + ":" + port;
    assert url[..|host|] == host && url[|host| + 1..] == port;
    FindAt(url, ':', |host|);
    assert SchemeLength(url) == None;
  }

  lemma FindAt(s: string, c: char, i: nat)
    requires i < |s| && s[i] == c
    requires forall j :: 0 <= j < i ==> s[j] != c
    ensures Find(s, c) == i
  {
  }

  /** `//netloc/path` after the scheme: that network location, and that path. */
  lemma RestOfAuthority(netloc: string, path: string)
    requires forall i :: 0 <= i < |netloc| ==> netloc[i] != '/' && netloc[i] != '?' && netloc[i] != '#'
    requires path == [] || IsPlainAbsolutePath(path)
    ensures NetlocOf("//" + netloc + path) == netloc && PathOf("//" + netloc + path) == path
  {
    var rest := "//" + netloc + path;
    assert StartsWithDoubleSlash(rest) by {
      assert rest[..2] == "//";
    }
    assert rest[2..] == netloc + path;
    PathStartAt(netloc + path, |netloc|);
    assert (netloc + path)[..|netloc|] == netloc && (netloc + path)[|netloc|..] == path;
    QueryStartNone(path);
  }

  /** A plain absolute path after the scheme: no network location, and the whole path. */
  lemma RestOfPath(path: string)
    requires IsPlainAbsolutePath(path)
    ensures NetlocOf(path) == "" && PathOf(path) == path
  {
    QueryStartNone(path);
  }

  lemma QueryStartNone(s: string)
    requires '?' !in s && '#' !in s
    ensures QueryStart(s) == |s|
  {
  }

  /**
   * `urljoin(scheme://netloc, path)` for a plain absolute path: the scheme in lower case, the
   * network location and the path when the scheme is resolved against; the path alone otherwise.
   */
  lemma JoinOfOrigin(scheme: string, netloc: string, path: string)
    requires scheme != [] && AllSchemeChars(scheme)
    requires forall i :: 0 <= i < |netloc| ==> netloc[i] != '/' && netloc[i] != '?' && netloc[i] != '#'
    requires IsPlainAbsolutePath(path)
    ensures Listed(UsesRelative, Lower(scheme)) ==>
      JoinAbsolutePath(scheme + "://" + netloc, path) == Lower(scheme) + "://" + netloc + path
    ensures !Listed(UsesRelative, Lower(scheme)) ==> JoinAbsolutePath(scheme + "://" + netloc, path) == path
  {
    SplitOfOrigin(scheme, netloc, "");
    assert scheme + "://" + netloc + "" == scheme + "://" + netloc;
  }

  lemma PathStartAt(s: string, i: nat)
    requires i <= |s|
    requires forall j :: 0 <= j < i ==> s[j] != '/' && s[j] != '?' && s[j] != '#'
    requires i < |s| ==> s[i] == '/'
    ensures PathStart(s) == i
  {
  }

  /**
   * A URL `urljoin` has built from an absolute path is its own base for a query: joining
   * `?query` to it appends the query.
   */
  lemma {:induction false} QueryBaseOfJoin(base: string, path: string)
    requires IsPlainAbsolutePath(path)
    ensures QueryBase(JoinAbsolutePath(base, path)) == JoinAbsolutePath(base, path)
  {
    var scheme, netloc := Scheme(base), Netloc(base);
    var u := JoinAbsolutePath(base, path);
    if Listed(UsesRelative, scheme) && scheme != "" {
      SplitOfOrigin(scheme, netloc, path);
      LowerOfLower(scheme);
      RelativeUsesNetloc(scheme);
    } else if scheme == "" && netloc != "" {
      SplitOfNetloc(netloc, path);
    } else {
      SplitOfPath(path);
      EmptySchemeListed();
    }
  }
}
