/**
 * The weewx uploader service: the configuration gate of the service, the
 * endpoint the upload thread forms at construction (directly from a stream id,
 * or by looking a stream name up on the server and creating the stream when
 * it is missing), the transform of a record into the JSON payload, and the
 * check of the server's reply to a post.
 *
 * The server is an oracle from requests to replies; unit conversion and the
 * database lookup of the full record are function parameters.
 */
module WeeRT {
  import opened Wrappers
  import UrlParse

  // ---------------------------------------------------------------------------
  // Python values and errors
  // ---------------------------------------------------------------------------

  /** The values a weewx record holds: None, an int (such as `dateTime`) or a float. */
  datatype PyValue = PyNone | PyInt(i: int) | PyFloat(x: real)

  /** A weewx record: observation name to value. */
  type Record = map<string, PyValue>

  /**
   * The exceptions the model raises: a missing dict key (or list index), arithmetic on None, a
   * missing attribute, a value `urlsplit` or `json.loads` rejects, and urllib2's URLError with
   * its reason.
   */
  datatype PyError =
    | KeyError(key: string)
    | TypeError
    | AttributeError(attribute: string)
    | ValueError
    | URLError(reason: string)

  /** `d.get(k)`: None for a missing key. */
  function PyGet(d: Record, k: string): PyValue {
    if k in d then d[k] else PyNone
  }

  /** A string setting counts as given when it is present and not empty (Python truthiness). */
  predicate Given(setting: Option<string>) {
    setting.Some? && setting.value != ""
  }

  // ---------------------------------------------------------------------------
  // Configuration
  // ---------------------------------------------------------------------------

  const DefaultServerUrl: string := "http://localhost:3000"
  const StreamEndpoint: string := "/api/v1/streams/"

  const DefaultObsTypes: seq<string> :=
    ["outTemp", "dewpoint", "inTemp", "outHumidity", "barometer", "windSpeed", "windDir", "dayRain"]

  /** The rename table from weewx observation names to the names the WeeRT server uses. */
  const NameMap: map<string, string> := map[
    "outTemp" := "outside_temperature",
    "dewpoint" := "dewpoint_temperature",
    "inTemp" := "inside_temperature",
    "outHumidity" := "outside_humidity",
    "barometer" := "barometer_pressure",
    "windSpeed" := "wind_speed",
    "windDir" := "wind_direction",
    "dayRain" := "day_rain"]

  /** `map.get(k, k)`: the renamed key, or the key itself when it has no entry. */
  function MapName(k: string): string {
    if k in NameMap then NameMap[k] else k
  }

  /** The settings of the `[WeeRT]` section that the upload thread reads. */
  datatype ThreadConfig = ThreadConfig(
    streamId: Option<string>,
    streamName: Option<string>,
    serverUrl: string,
    obsTypes: seq<string>)

  /** A configuration section with only the stream settings given, the rest at their defaults. */
  function DefaultConfig(streamId: Option<string>, streamName: Option<string>): ThreadConfig {
    ThreadConfig(streamId, streamName, DefaultServerUrl, DefaultObsTypes)
  }

  /**
   * The gate of the service's constructor: no thread is created unless the section is
   * enabled (`section` present) and one of `stream_id`, `stream_name` is non-empty.
   */
  predicate StartsThread(section: Option<ThreadConfig>)
    ensures section.None? ==> !StartsThread(section)
    ensures section.Some? && section.value.streamId in {None, Some("")} && section.value.streamName in {None, Some("")} ==>
      !StartsThread(section)
    ensures section.Some? && Given(section.value.streamId) ==> StartsThread(section)
  {
    section.Some? && (Given(section.value.streamId) || Given(section.value.streamName))
  }

  /** What the thread's constructor demands: a stream id, or a stream name to resolve. */
  predicate CanConstruct(cfg: ThreadConfig) {
    Given(cfg.streamId) || cfg.streamName.Some?
  }

  /** The gate lets through only configurations the thread's constructor accepts. */
  lemma GateImpliesConstructible(section: Option<ThreadConfig>)
    requires StartsThread(section)
    ensures CanConstruct(section.value)
    ensures !Given(section.value.streamId) ==> Given(section.value.streamName)
  {
  }

  // ---------------------------------------------------------------------------
  // URLs
  // ---------------------------------------------------------------------------

  predicate StartsWithChar(s: string, c: char) {
    |s| > 0 && s[0] == c
  }

  predicate EndsWith(s: string, suffix: string) {
    |suffix| <= |s| && s[|s| - |suffix|..] == suffix
  }

  /** `s.rstrip(' /')`. */
  function RStripSpaceSlash(s: string): (t: string)
    ensures |t| <= |s| && t == s[..|t|]
    ensures t == [] || (t[|t| - 1] != ' ' && t[|t| - 1] != '/')
    ensures forall i :: |t| <= i < |s| ==> s[i] == ' ' || s[i] == '/'
  {
    if s != [] && (s[|s| - 1] == ' ' || s[|s| - 1] == '/') then RStripSpaceSlash(s[..|s| - 1]) else s
  }

  /** The stream collection endpoint: `urljoin(server_url, STREAM_ENDPOINT)`. */
  function StreamsUrl(serverUrl: string): string {
    EndpointIsPlainPath();
    UrlParse.JoinAbsolutePath(serverUrl, StreamEndpoint)
  }

  /** The endpoint constant is a path `urljoin` takes as it is. */
  lemma EndpointIsPlainPath()
    ensures UrlParse.IsPlainAbsolutePath(StreamEndpoint)
  {
    assert StreamEndpoint[..2] == "/a";
  }

  /** `streamid_url.rstrip(' /') + '/packets'`. */
  function PacketsUrl(streamUrl: string): (u: string)
    ensures EndsWith(u, "/packets")
    ensures u[..|u| - 8] == RStripSpaceSlash(streamUrl)
  {
    RStripSpaceSlash(streamUrl) + "/packets"
  }

  /** The packets URL is the stream URL with trailing blanks and slashes removed, then `/packets`. */
  lemma PacketsUrlShape(streamUrl: string)
    ensures var u := PacketsUrl(streamUrl);
      var base := u[..|u| - 8];
      StartsWith(streamUrl, base)
      && (base == [] || (base[|base| - 1] != '/' && base[|base| - 1] != ' '))
      && forall i :: |base| <= i < |streamUrl| ==> streamUrl[i] == ' ' || streamUrl[i] == '/'
  {
  }

  predicate StartsWith(s: string, prefix: string) {
    |prefix| <= |s| && s[..|prefix|] == prefix
  }

  /** The stream URL formed from a configured stream id: `stream_endpoint_url + '/' + stream_id`. */
  function StreamIdUrl(streamsUrl: string, streamId: string): (u: string)
    ensures |u| == |streamsUrl| + 1 + |streamId|
    ensures StartsWith(u, streamsUrl) && u[|streamsUrl|] == '/' && EndsWith(u, streamId)
  {
    streamsUrl + "/" + streamId
  }

  /** A network location `host[:port]`: no `/`, `?` or `#`. */
  predicate IsHost(host: string) {
    forall k :: 0 <= k < |host| ==> host[k] != '/' && host[k] != '?' && host[k] != '#'
  }

  /**
   * The stream collection endpoint of a server given as `scheme://host[:port]`: the scheme in
   * lower case, the host and the endpoint path, when `urljoin` resolves against that scheme;
   * the endpoint path alone when it does not.
   */
  lemma OriginStreamsUrl(scheme: string, host: string)
    requires scheme != [] && UrlParse.AllSchemeChars(scheme) && IsHost(host)
    ensures var lower := UrlParse.Lower(scheme);
      && (UrlParse.Listed(UrlParse.UsesRelative, lower) ==> StreamsUrl(scheme + "://" + host) == lower + "://" + host + StreamEndpoint)
      && (!UrlParse.Listed(UrlParse.UsesRelative, lower) ==> StreamsUrl(scheme + "://" + host) == StreamEndpoint)
  {
    EndpointIsPlainPath();
    UrlParse.JoinOfOrigin(scheme, host, StreamEndpoint);
  }

  /** For a server `http://host[:port]` or `https://host[:port]`, the endpoint is the server URL followed by the endpoint path. */
  lemma PlainOriginStreamsUrl(scheme: string, host: string)
    requires (scheme == "http" || scheme == "https") && IsHost(host)
    ensures StreamsUrl(scheme + "://" + host) == scheme + "://" + host + StreamEndpoint
  {
    HttpSchemes(scheme);
    EndpointIsPlainPath();
    UrlParse.JoinOfOrigin(scheme, host, StreamEndpoint);
  }

  lemma HttpSchemes(scheme: string)
    requires scheme == "http" || scheme == "https"
    ensures UrlParse.AllSchemeChars(scheme)
    ensures UrlParse.Lower(scheme) == scheme && UrlParse.Listed(UrlParse.UsesRelative, scheme)
  {
    UrlParse.LowerOfLower(scheme);
    HttpRelative();
    HttpChars();
  }

  lemma HttpChars()
    ensures UrlParse.AllSchemeChars("http") && UrlParse.AllSchemeChars("https")
  {
    var https := "https";
    assert forall i :: 0 <= i < 5 ==> 'a' <= https[i] <= 'z';
    assert "http" == https[..4];
  }

  lemma HttpRelative()
    ensures UrlParse.Listed(UrlParse.UsesRelative, "http") && UrlParse.Listed(UrlParse.UsesRelative, "https")
  {
    UrlParse.ListedAt(UrlParse.UsesRelative, 1);
    UrlParse.ListedAt(UrlParse.UsesRelative, 7);
  }

  /** `urljoin` lower-cases the scheme of the server URL: `HTTP://host` gives an `http:` endpoint. */
  lemma UpperCaseSchemeLowered(host: string)
    requires IsHost(host)
    ensures StreamsUrl("HTTP://" + host) == "http://" + host + "/api/v1/streams/"
  {
    EndpointIsPlainPath();
    LowerHttp();
    UrlParse.JoinOfOrigin("HTTP", host, StreamEndpoint);
    HttpText(host);
  }

  lemma HttpText(host: string)
    ensures "HTTP" + "://" + host == "HTTP://" + host
    ensures "http" + "://" + host + StreamEndpoint == "http://" + host + "/api/v1/streams/"
  {
  }

  lemma LowerHttp()
    ensures UrlParse.Lower("HTTP") == "http" && UrlParse.Listed(UrlParse.UsesRelative, "http") && UrlParse.AllSchemeChars("HTTP")
  {
    var l := UrlParse.Lower("HTTP");
    assert l[0] == 'h' && l[1] == 't' && l[2] == 't' && l[3] == 'p';
    assert UrlParse.AllSchemeChars("HTTP");
    UrlParse.ListedAt(UrlParse.UsesRelative, 1);
    assert UrlParse.UsesRelative[1] == "http";
  }

  /** A scheme `urljoin` does not resolve against, such as `telnet`, keeps nothing of the server URL. */
  lemma NonRelativeSchemeGivesPathOnly(host: string)
    requires IsHost(host)
    ensures StreamsUrl("telnet://" + host) == "/api/v1/streams/"
  {
    var scheme := "telnet";
    TelnetFacts(scheme);
    EndpointIsPlainPath();
    UrlParse.JoinOfOrigin(scheme, host, StreamEndpoint);
    TelnetText(host);
  }

  lemma TelnetText(host: string)
    ensures "telnet" + "://" + host == "telnet://" + host
  {
  }

  lemma TelnetFacts(scheme: string)
    requires scheme == "telnet"
    ensures scheme != [] && UrlParse.AllSchemeChars(scheme)
    ensures UrlParse.Lower(scheme) == scheme && !UrlParse.Listed(UrlParse.UsesRelative, scheme)
  {
    UrlParse.LowerOfLower(scheme);
    TelnetNotRelative();
    UrlParse.ListedIsIn(UrlParse.UsesRelative, scheme);
  }

  lemma TelnetNotRelative()
    ensures "telnet" !in UrlParse.UsesRelative
  {
  }

  /**
   * For a server given as `http://host[:port]` (or `https`), the packets URL built from a
   * stream id has an empty path segment between `streams` and the id, because the endpoint
   * constant already ends in a slash.
   */
  lemma StreamIdUrlDoubleSlash(scheme: string, host: string, streamId: string)
    requires (scheme == "http" || scheme == "https") && IsHost(host)
    requires streamId != [] && streamId[|streamId| - 1] != '/' && streamId[|streamId| - 1] != ' '
    ensures var serverUrl := scheme + "://" + host;
      PacketsUrl(StreamIdUrl(StreamsUrl(serverUrl), streamId)) == serverUrl + "/api/v1/streams//" + streamId + "/packets"
  {
    var serverUrl := scheme + "://" + host;
    var e := StreamsUrl(serverUrl);
    PlainOriginStreamsUrl(scheme, host);
    PacketsOfStreamId(e, streamId);
    assert e + "/" + streamId + "/packets" == serverUrl + "/api/v1/streams//" + streamId + "/packets" by {
      DoubleSlashText(serverUrl, streamId);
    }
  }

  lemma DoubleSlashText(serverUrl: string, streamId: string)
    ensures serverUrl + StreamEndpoint + "/" + streamId + "/packets" == serverUrl + "/api/v1/streams//" + streamId + "/packets"
  {
  }

  lemma PacketsOfStreamId(streamsUrl: string, streamId: string)
    requires streamId != [] && streamId[|streamId| - 1] != '/' && streamId[|streamId| - 1] != ' '
    ensures PacketsUrl(StreamIdUrl(streamsUrl, streamId)) == streamsUrl + "/" + streamId + "/packets"
  {
    var s := StreamIdUrl(streamsUrl, streamId);
    assert s[|s| - 1] == streamId[|streamId| - 1];
    assert RStripSpaceSlash(s) == s;
  }

  /** The stream URL the code evidently means: exactly one slash between the endpoint and the id. */
  function StreamIdUrlCorrected(streamsUrl: string, streamId: string): (u: string)
    ensures var base := RStripSpaceSlash(streamsUrl);
      && |u| == |base| + 1 + |streamId|
      && u[..|base|] == base && u[|base|] == '/' && u[|base| + 1..] == streamId
      && (base == [] || base[|base| - 1] != '/')
  {
    RStripSpaceSlash(streamsUrl) + "/" + streamId
  }

  /** With the correction, the packets URL has no empty path segment. */
  lemma StreamIdUrlCorrectedSingleSlash(scheme: string, host: string, streamId: string)
    requires (scheme == "http" || scheme == "https") && IsHost(host)
    requires streamId != [] && streamId[|streamId| - 1] != '/' && streamId[|streamId| - 1] != ' '
    ensures var serverUrl := scheme + "://" + host;
      PacketsUrl(StreamIdUrlCorrected(StreamsUrl(serverUrl), streamId)) == serverUrl + "/api/v1/streams/" + streamId + "/packets"
  {
    PlainOriginStreamsUrl(scheme, host);
    CorrectedPacketsOfStreamId(scheme + "://" + host, streamId);
  }

  lemma CorrectedPacketsOfStreamId(serverUrl: string, streamId: string)
    requires streamId != [] && streamId[|streamId| - 1] != '/' && streamId[|streamId| - 1] != ' '
    ensures PacketsUrl(StreamIdUrlCorrected(serverUrl + StreamEndpoint, streamId))
      == serverUrl + "/api/v1/streams/" + streamId + "/packets"
  {
    var e := serverUrl + StreamEndpoint;
    var trimmed := serverUrl + "/api/v1/streams";
    assert e == trimmed + "/";
    assert RStripSpaceSlash(e) == RStripSpaceSlash(trimmed);
    assert RStripSpaceSlash(trimmed) == trimmed;
    var s := StreamIdUrlCorrected(e, streamId);
    assert s[|s| - 1] == streamId[|streamId| - 1];
    assert RStripSpaceSlash(s) == s;
  }

  // ---------------------------------------------------------------------------
  // The stream lookup query: JSON text, then form encoding
  // ---------------------------------------------------------------------------

  const HexLower: string := "0123456789abcdef"
  const HexUpper: string := "0123456789ABCDEF"

  /** `'%04x' % n`. */
  function Hex4(n: nat): (s: string)
    requires n < 0x10000
    ensures |s| == 4 && forall i :: 0 <= i < 4 ==> s[i] in HexLower
  {
    [HexLower[n / 0x1000], HexLower[(n / 0x100) % 16], HexLower[(n / 16) % 16], HexLower[n % 16]]
  }

  /** Printable ASCII, the characters `json.dumps` writes as they are. */
  predicate IsPrintableAscii(c: char) {
    ' ' <= c <= '~'
  }

  /** One character of a string as `json.dumps` writes it, with `ensure_ascii` on. */
  function JsonEscapeChar(c: char): (s: string)
    ensures forall i :: 0 <= i < |s| ==> IsPrintableAscii(s[i])
    ensures IsPrintableAscii(c) && c != '"' && c != '\\' ==> s == [c]
  {
    if c == '"' then "\\\""
    else if c == '\\' then "\\\\"
    else if c == '\n' then "\\n"
    else if c == '\r' then "\\r"
    else if c == '\t' then "\\t"
    else if c == 8 as char then "\\b"
    else if c == 12 as char then "\\f"
    else if IsPrintableAscii(c) then [c]
    else if (c as int) < 0x10000 then "\\u" + Hex4(c as int)
    else
      var n := c as int - 0x10000;
      "\\u" + Hex4(0xD800 + n / 0x400) + "\\u" + Hex4(0xDC00 + n % 0x400)
  }

  function JsonEscape(s: string): (t: string)
    ensures forall i :: 0 <= i < |t| ==> IsPrintableAscii(t[i])
  {
    if s == [] then [] else JsonEscapeChar(s[0]) + JsonEscape(s[1..])
  }

  /** A name of printable ASCII without quotes or backslashes is written into JSON verbatim. */
  lemma {:induction false} JsonEscapePlain(s: string)
    requires forall i :: 0 <= i < |s| ==> IsPrintableAscii(s[i]) && s[i] != '"' && s[i] != '\\'
    ensures JsonEscape(s) == s
  {
    if s != [] {
      JsonEscapePlain(s[1..]);
    }
  }

  /** `json.dumps({"name": {"$eq": name}})`, with Python's default separators. */
  function NameQueryJson(name: string): (t: string)
    ensures forall i :: 0 <= i < |t| ==> IsPrintableAscii(t[i])
  {
    "{\"name\": {\"$eq\": \"" + JsonEscape(name) + "\"}}"
  }

  /** The characters `urllib.quote_plus` never escapes. */
  predicate AlwaysSafe(c: char) {
    ('a' <= c <= 'z') || ('A' <= c <= 'Z') || ('0' <= c <= '9') || c == '_' || c == '.' || c == '-'
  }

  /** One byte as `urllib.quote_plus` writes it: kept, `+` for a space, else `%XX`. */
  function QuoteChar(c: char): (s: string)
    requires (c as int) < 256
    ensures 1 <= |s| <= 3 && forall i :: 0 <= i < |s| ==> FormSafe(s[i])
  {
    if AlwaysSafe(c) then [c]
    else if c == ' ' then "+"
    else "%" + [HexUpper[c as int / 16], HexUpper[c as int % 16]]
  }

  /**
   * The characters `quote_plus` may write: those it keeps, `+` and `%`; neither `&`, `=` nor
   * a blank, so a quoted value stays one form field.
   */
  predicate FormSafe(c: char) {
    AlwaysSafe(c) || c == '+' || c == '%'
  }

  /** `urllib.quote_plus` on a byte string. */
  function QuotePlus(s: string): (q: string)
    requires forall i :: 0 <= i < |s| ==> (s[i] as int) < 256
    ensures |s| <= |q| <= 3 * |s|
    ensures forall i :: 0 <= i < |q| ==> FormSafe(q[i])
  {
    if s == [] then [] else QuoteChar(s[0]) + QuotePlus(s[1..])
  }

  /** `urllib.unquote_plus`: the decoding the server applies to a query value. */
  function UnquotePlus(q: string): string
    decreases |q|
  {
    if q == [] then []
    else if q[0] == '%' && |q| >= 3 && q[1] in HexUpper && q[2] in HexUpper then
      [(HexValue(q[1]) * 16 + HexValue(q[2])) as char] + UnquotePlus(q[3..])
    else if q[0] == '+' then [' '] + UnquotePlus(q[1..])
    else [q[0]] + UnquotePlus(q[1..])
  }

  function HexValue(c: char): (v: nat)
    requires c in HexUpper
    ensures v < 16 && HexUpper[v] == c
  {
    if '0' <= c <= '9' then c as int - '0' as int else c as int - 'A' as int + 10
  }

  lemma HexDigitsDistinct()
    ensures forall i, j :: 0 <= i < j < 16 ==> HexUpper[i] != HexUpper[j]
  {
  }

  lemma HexValueOfDigit(d: nat)
    requires d < 16
    ensures HexValue(HexUpper[d]) == d
  {
    HexDigitsDistinct();
    assert HexUpper[HexValue(HexUpper[d])] == HexUpper[d];
  }

  lemma HexRoundTrip(b: nat)
    requires b < 256
    ensures HexValue(HexUpper[b / 16]) * 16 + HexValue(HexUpper[b % 16]) == b
  {
    HexValueOfDigit(b / 16);
    HexValueOfDigit(b % 16);
  }

  /** Decoding one encoded byte, followed by anything, gives back that byte first. */
  lemma UnquoteQuoteChar(c: char, rest: string)
    requires (c as int) < 256
    ensures UnquotePlus(QuoteChar(c) + rest) == [c] + UnquotePlus(rest)
  {
    if AlwaysSafe(c) {
      var q := [c] + rest;
      assert q[0] == c && q[1..] == rest;
    } else if c == ' ' {
      var q := "+" + rest;
      assert q[0] == '+' && q[1..] == rest;
    } else {
      UnquoteEscape(c, rest);
    }
  }

  /** A `%XX` escape decodes to the byte it was written for. */
  lemma UnquoteEscape(c: char, rest: string)
    requires (c as int) < 256
    ensures UnquotePlus("%" + [HexUpper[c as int / 16], HexUpper[c as int % 16]] + rest) == [c] + UnquotePlus(rest)
  {
    var b := c as int;
    var hi, lo := HexUpper[b / 16], HexUpper[b % 16];
    var q := "%" + [hi, lo] + rest;
    assert q[0] == '%' && q[1] == hi && q[2] == lo && q[3..] == rest;
    assert hi in HexUpper && lo in HexUpper;
    HexRoundTrip(b);
    assert (HexValue(hi) * 16 + HexValue(lo)) as char == c;
  }

  /** Form decoding undoes form encoding for every byte string. */
  lemma {:induction false} UnquoteQuotePlus(s: string)
    requires forall i :: 0 <= i < |s| ==> (s[i] as int) < 256
    ensures UnquotePlus(QuotePlus(s)) == s
  {
    if s != [] {
      UnquoteQuotePlus(s[1..]);
      UnquoteQuoteChar(s[0], QuotePlus(s[1..]));
    }
  }

  /** The lookup URL: `urljoin(stream_endpoint, '?' + urlencode({'query': json.dumps(query)}))`. */
  function LookupUrl(streamsUrl: string, name: string): (u: string)
    ensures StartsWith(u, UrlParse.QueryBase(streamsUrl) + "?query=")
    ensures forall i :: |UrlParse.QueryBase(streamsUrl)| + 7 <= i < |u| ==> FormSafe(u[i])
  {
    var q := QuotePlus(NameQueryJson(name));
    FormFieldHasNoFragment(q);
    UrlParse.JoinQueryAppends(streamsUrl, "query=" + q);
    QueryFieldAfter(UrlParse.QueryBase(streamsUrl), q);
    UrlParse.JoinQuery(streamsUrl, "query=" + q)
  }

  lemma QueryFieldAfter(base: string, q: string)
    requires forall i :: 0 <= i < |q| ==> FormSafe(q[i])
    ensures var u := base + "?" + ("query=" + q);
      StartsWith(u, base + "?query=") && forall i :: |base| + 7 <= i < |u| ==> FormSafe(u[i])
  {
    var u := base + "?" + ("query=" + q);
    assert u == (base + "?query=") + q;
  }

  /**
   * The lookup URL carries one form field, `query`, whose decoded value is the JSON text of
   * the exact-match query on the stream name.
   */
  lemma LookupUrlCarriesNameQuery(streamsUrl: string, name: string)
    ensures var u := LookupUrl(streamsUrl, name);
      var base := UrlParse.QueryBase(streamsUrl);
      var q := u[|base| + 7..];
      u == base + "?query=" + q
      && UnquotePlus(q) == NameQueryJson(name)
  {
    var j := NameQueryJson(name);
    PrintableIsByte(j);
    UnquoteQuotePlus(j);
    LookupUrlAppends(streamsUrl, name);
    QueryAfterField(UrlParse.QueryBase(streamsUrl), QuotePlus(j));
  }

  lemma QueryAfterField(base: string, q: string)
    ensures (base + "?query=" + q)[|base| + 7..] == q
  {
  }

  /**
   * On the endpoint the uploader forms from its server URL, the lookup URL is that endpoint
   * followed by `?query=` and the encoded query: `urljoin` keeps the endpoint whole.
   */
  lemma LookupUrlOfEndpoint(serverUrl: string, name: string)
    ensures LookupUrl(StreamsUrl(serverUrl), name) == StreamsUrl(serverUrl) + "?query=" + QuotePlus(NameQueryJson(name))
  {
    var e := StreamsUrl(serverUrl);
    EndpointIsPlainPath();
    UrlParse.QueryBaseOfJoin(serverUrl, StreamEndpoint);
    LookupUrlAppends(e, name);
  }

  /**
   * The lookup URL has a type exactly when the server URL's scheme is one `urljoin` resolves
   * against. Without a scheme, or with another one, the endpoint is a bare path (or
   * `//netloc` and a path) and `urlopen` refuses it.
   */
  lemma LookupUrlTypeIff(serverUrl: string, name: string)
    ensures var scheme := UrlParse.Scheme(serverUrl);
      HasUrlType(LookupUrl(StreamsUrl(serverUrl), name)) <==> scheme != "" && UrlParse.Listed(UrlParse.UsesRelative, scheme)
  {
    var e := StreamsUrl(serverUrl);
    var sep, q := "?query=", QuotePlus(NameQueryJson(name));
    assert LookupUrl(e, name) == e + sep + q by { LookupUrlOfEndpoint(serverUrl, name); }
    var scheme := UrlParse.Scheme(serverUrl);
    if scheme != "" && UrlParse.Listed(UrlParse.UsesRelative, scheme) {
      var netloc := UrlParse.Netloc(serverUrl);
      assert e == scheme + "://" + netloc + StreamEndpoint by { EndpointOfRelative(serverUrl); }
      TypedOrigin(scheme, netloc, StreamEndpoint, sep, q);
    } else {
      assert |e| > 0 && e[0] == '/' by { EndpointOfOther(serverUrl); }
      SlashFirstUntyped(e + sep + q);
    }
  }

  lemma EndpointOfRelative(serverUrl: string)
    requires UrlParse.Scheme(serverUrl) != "" && UrlParse.Listed(UrlParse.UsesRelative, UrlParse.Scheme(serverUrl))
    ensures StreamsUrl(serverUrl) == UrlParse.Scheme(serverUrl) + "://" + UrlParse.Netloc(serverUrl) + StreamEndpoint
  {
  }

  lemma EndpointOfOther(serverUrl: string)
    requires UrlParse.Scheme(serverUrl) == "" || !UrlParse.Listed(UrlParse.UsesRelative, UrlParse.Scheme(serverUrl))
    ensures |StreamsUrl(serverUrl)| > 0 && StreamsUrl(serverUrl)[0] == '/'
  {
    var e := StreamsUrl(serverUrl);
    assert StreamEndpoint[0] == '/';
    if UrlParse.Scheme(serverUrl) == "" && UrlParse.Netloc(serverUrl) != "" {
      assert e == "//" + UrlParse.Netloc(serverUrl) + StreamEndpoint;
    } else {
      assert e == StreamEndpoint;
    }
  }

  /** `scheme://netloc path sep q` has a type: the scheme's characters are neither `:` nor `/`. */
  lemma TypedOrigin(scheme: string, netloc: string, path: string, sep: string, q: string)
    requires scheme != [] && UrlParse.AllSchemeChars(scheme)
    ensures HasUrlType(scheme + "://" + netloc + path + sep + q)
  {
    var tail := "://" + netloc + path + sep + q;
    var u := scheme + tail;
    assert u == scheme + "://" + netloc + path + sep + q;
    assert u[|scheme|] == tail[0] == ':';
    forall j | 0 <= j < |scheme|
      ensures u[j] != ':' && u[j] != '/'
    {
      assert u[j] == scheme[j];
    }
    TypedAt(u, |scheme|);
  }

  /**
   * A server URL without a scheme, or with one `urljoin` does not resolve against, makes the
   * resolution raise ValueError with nothing sent, whatever the server would answer.
   */
  lemma UnresolvableSchemeRaises(serverUrl: string, name: string, server: Server)
    requires var scheme := UrlParse.Scheme(serverUrl);
      scheme == "" || !UrlParse.Listed(UrlParse.UsesRelative, scheme)
    ensures ResolveStreamUrl(StreamsUrl(serverUrl), name, server) == Exchange(Failure(ValueError), [])
  {
    LookupUrlTypeIff(serverUrl, name);
  }

  /** A server URL `host:port`, such as `localhost:3000`, has no scheme: resolution raises ValueError. */
  lemma HostPortServerRaises(host: string, port: string, name: string, server: Server)
    requires host != [] && UrlParse.AllSchemeChars(host) && host != "http"
    requires port != [] && UrlParse.AllDigits(port)
    ensures ResolveStreamUrl(StreamsUrl(host + ":" + port), name, server) == Exchange(Failure(ValueError), [])
  {
    UrlParse.HostPortHasNoScheme(host, port);
    UnresolvableSchemeRaises(host + ":" + port, name, server);
  }

  /** The server URL `localhost:3000`, a host and port without a scheme, makes resolution raise ValueError. */
  lemma LocalhostPortRaises(name: string, server: Server)
    ensures ResolveStreamUrl(StreamsUrl("localhost:3000"), name, server) == Exchange(Failure(ValueError), [])
  {
    var host, port := "localhost", "3000";
    assert UrlParse.AllSchemeChars(host) && host != "http" && UrlParse.AllDigits(port);
    assert host + ":" + port == "localhost:3000";
    HostPortServerRaises(host, port, name, server);
  }

  /** A server URL `telnet://host[:port]` gives a bare-path endpoint: resolution raises ValueError. */
  lemma TelnetServerRaises(host: string, name: string, server: Server)
    requires IsHost(host)
    ensures ResolveStreamUrl(StreamsUrl("telnet://" + host), name, server) == Exchange(Failure(ValueError), [])
  {
    var scheme := "telnet";
    TelnetFacts(scheme);
    UrlParse.SplitOfOrigin(scheme, host, "");
    TelnetText(host);
    OriginText(scheme, host);
    UnresolvableSchemeRaises(scheme + "://" + host, name, server);
  }

  lemma OriginText(scheme: string, host: string)
    ensures scheme + "://" + host + "" == scheme + "://" + host
  {
  }

  lemma LookupUrlAppends(streamsUrl: string, name: string)
    ensures LookupUrl(streamsUrl, name) == UrlParse.QueryBase(streamsUrl) + "?query=" + QuotePlus(NameQueryJson(name))
  {
    var q := QuotePlus(NameQueryJson(name));
    FormFieldHasNoFragment(q);
    UrlParse.JoinQueryAppends(streamsUrl, "query=" + q);
    QueryText(UrlParse.QueryBase(streamsUrl), q);
  }

  lemma QueryText(base: string, q: string)
    ensures base + "?" + ("query=" + q) == base + "?query=" + q
  {
  }

  lemma FormFieldHasNoFragment(q: string)
    requires forall i :: 0 <= i < |q| ==> FormSafe(q[i])
    ensures "query=" + q != [] && '#' !in "query=" + q
  {
    var f := "query=" + q;
    forall i | 0 <= i < |f|
      ensures f[i] != '#'
    {
      if i >= 6 {
        assert f[i] == q[i - 6];
      }
    }
  }

  lemma PrintableIsByte(s: string)
    requires forall i :: 0 <= i < |s| ==> IsPrintableAscii(s[i])
    ensures forall i :: 0 <= i < |s| ==> (s[i] as int) < 256
  {
    forall i | 0 <= i < |s| ensures (s[i] as int) < 256 {
      assert IsPrintableAscii(s[i]);
    }
  }

  /** For a name of printable ASCII without quotes or backslashes, the query holds the name verbatim. */
  lemma NameQueryJsonPlain(name: string)
    requires forall i :: 0 <= i < |name| ==> IsPrintableAscii(name[i]) && name[i] != '"' && name[i] != '\\'
    ensures NameQueryJson(name) == "{\"name\": {\"$eq\": \"" + name + "\"}}"
  {
    JsonEscapePlain(name);
  }

  // ---------------------------------------------------------------------------
  // The server, as an oracle
  // ---------------------------------------------------------------------------

  /** The metadata the uploader posts to create a stream. */
  function NewStreamMetadata(name: string): map<string, string> {
    map["name" := name, "description" := "Stream for weewx", "unit_group" := "METRICWX"]
  }

  datatype Request = Get(url: string) | Post(url: string, body: map<string, string>)

  /**
   * A response body as `json.loads` reads it: not JSON at all, an array (of the strings the
   * server sends), or an object, of which only the keys matter here.
   */
  datatype JsonBody = NotJson | JsonArray(items: seq<string>) | JsonObject(keys: set<string>)

  /**
   * What opening a URL gives: a response, or a `URLError` (which includes urllib2's
   * HTTPError). A response has its status, its `Location` header when it has one, and its body.
   */
  datatype Reply = Reply(code: int, location: Option<string>, body: JsonBody) | UrlError(reason: string)

  type Server = Request -> Reply

  /**
   * Whether urllib2 finds the type of `url` (`splittype`): a non-empty run of characters other
   * than `/` and `:`, then a `:`. `urlopen` of a URL without a type raises ValueError ("unknown
   * url type") before anything is sent.
   */
  predicate HasUrlType(url: string) {
    var i := UrlParse.Find(url, ':');
    0 < i < |url| && forall j :: 0 <= j < i ==> url[j] != '/'
  }

  /** A URL that starts with a scheme and its `:` has a type. */
  lemma TypedAt(url: string, n: nat)
    requires 0 < n < |url| && url[n] == ':'
    requires forall j :: 0 <= j < n ==> url[j] != ':' && url[j] != '/'
    ensures HasUrlType(url)
  {
    UrlParse.FindAt(url, ':', n);
  }

  /** A URL that starts with `/`, a path or `//netloc`, has no type. */
  lemma SlashFirstUntyped(url: string)
    requires |url| > 0 && url[0] == '/'
    ensures !HasUrlType(url)
  {
  }

  /** A result, or the exception raised on the way, together with every request sent, in order. */
  datatype Exchange<T> = Exchange(result: Result<T, PyError>, sent: seq<Request>)

  /**
   * `lookup_streamURL`: a lookup URL without a type raises ValueError and sends nothing;
   * otherwise one GET, and the first URL of the returned array, or None when it is empty. A URL
   * error, or a body that is not JSON, is raised. A JSON object is indexed with the integer 0:
   * an empty one is falsy and gives None, any other raises `KeyError(0)`.
   */
  function LookupStreamUrl(streamsUrl: string, name: string, server: Server): (x: Exchange<Option<string>>)
    ensures !HasUrlType(LookupUrl(streamsUrl, name)) ==> x == Exchange(Failure(ValueError), [])
    ensures HasUrlType(LookupUrl(streamsUrl, name)) ==> x.sent == [Get(LookupUrl(streamsUrl, name))]
    ensures var reply := server(Get(LookupUrl(streamsUrl, name)));
      HasUrlType(LookupUrl(streamsUrl, name)) ==>
      && (reply.UrlError? ==> x.result == Failure(URLError(reply.reason)))
      && (reply.Reply? && reply.body.NotJson? ==> x.result == Failure(ValueError))
      && (reply.Reply? && reply.body.JsonObject? ==>
            x.result == (if reply.body.keys == {} then Success(None) else Failure(KeyError("0"))))
      && (reply.Reply? && reply.body.JsonArray? ==>
            x.result.Success?
            && (x.result.value.None? <==> reply.body.items == [])
            && (x.result.value.Some? ==> x.result.value.value == reply.body.items[0]))
  {
    var request := Get(LookupUrl(streamsUrl, name));
    if !HasUrlType(request.url) then Exchange(Failure(ValueError), [])
    else match server(request)
    case UrlError(reason) => Exchange(Failure(URLError(reason)), [request])
    case Reply(_, _, NotJson) => Exchange(Failure(ValueError), [request])
    case Reply(_, _, JsonObject(keys)) =>
      Exchange(if keys == {} then Success(None) else Failure(KeyError("0")), [request])
    case Reply(_, _, JsonArray(urls)) => Exchange(Success(if urls == [] then None else Some(urls[0])), [request])
  }

  /**
   * `resolve_streamURL`: the looked-up URL when it is non-empty, with no further request;
   * otherwise exactly one POST that creates the stream (ValueError, with nothing more sent,
   * when the endpoint has no URL type). On status 201 the result is its
   * `Location` header (a KeyError when it has none), once the body has been read as JSON (a
   * ValueError when it is not) and asked for its `_id` (an AttributeError when it is an array,
   * which has no `get`); on any other status it is None.
   */
  function ResolveStreamUrl(streamsUrl: string, name: string, server: Server): (x: Exchange<Option<string>>)
    ensures !HasUrlType(LookupUrl(streamsUrl, name)) ==> x == Exchange(Failure(ValueError), [])
    ensures HasUrlType(LookupUrl(streamsUrl, name)) ==> 1 <= |x.sent| <= 2 && x.sent[0] == Get(LookupUrl(streamsUrl, name))
    ensures forall i :: 1 <= i < |x.sent| ==> x.sent[i] == Post(streamsUrl, NewStreamMetadata(name))
  {
    var lookup := LookupStreamUrl(streamsUrl, name, server);
    match lookup.result
    case Failure(reason) => lookup
    case Success(found) =>
      if Given(found) then lookup
      else
        var create := Post(streamsUrl, NewStreamMetadata(name));
        if !HasUrlType(streamsUrl) then Exchange(Failure(ValueError), lookup.sent)
        else match server(create)
        case UrlError(reason) => Exchange(Failure(URLError(reason)), lookup.sent + [create])
        case Reply(code, location, body) =>
          if code != 201 then Exchange(Success(None), lookup.sent + [create])
          else if location.None? then Exchange(Failure(KeyError("location")), lookup.sent + [create])
          else if body.NotJson? then Exchange(Failure(ValueError), lookup.sent + [create])
          else if body.JsonArray? then Exchange(Failure(AttributeError("get")), lookup.sent + [create])
          else Exchange(Success(location), lookup.sent + [create])
  }

  /** Resolution sends no create request when the lookup it sends finds a (non-empty) URL, and returns it. */
  lemma ResolveFoundSendsNoCreate(streamsUrl: string, name: string, server: Server)
    requires HasUrlType(LookupUrl(streamsUrl, name))
    requires server(Get(LookupUrl(streamsUrl, name))).Reply?
    requires server(Get(LookupUrl(streamsUrl, name))).body.JsonArray?
    requires var a := server(Get(LookupUrl(streamsUrl, name))).body.items; a != [] && a[0] != ""
    ensures var x := ResolveStreamUrl(streamsUrl, name, server);
      x.sent == [Get(LookupUrl(streamsUrl, name))]
      && x.result == Success(Some(server(Get(LookupUrl(streamsUrl, name))).body.items[0]))
  {
  }

  /**
   * When the lookup finds nothing (an empty array or object, or an empty first URL), exactly
   * one create request follows, carrying the name, the description "Stream for weewx" and the
   * unit group "METRICWX"; the result is the `Location` of a 201 reply whose body is a JSON
   * object, and None for any other status. A 201 reply without `Location` raises a KeyError,
   * one whose body is not JSON a ValueError, one whose body is an array an AttributeError. An
   * endpoint without a URL type raises ValueError instead of sending the create request.
   */
  lemma ResolveMissingCreatesOnce(streamsUrl: string, name: string, server: Server)
    requires var lookup := LookupStreamUrl(streamsUrl, name, server).result;
      lookup.Success? && !Given(lookup.value)
    ensures var x := ResolveStreamUrl(streamsUrl, name, server);
      var create := Post(streamsUrl, NewStreamMetadata(name));
      var reply := server(create);
      && (!HasUrlType(streamsUrl) ==> x == Exchange(Failure(ValueError), [Get(LookupUrl(streamsUrl, name))]))
      && (HasUrlType(streamsUrl) ==> x.sent == [Get(LookupUrl(streamsUrl, name)), create])
      && (reply.UrlError? && HasUrlType(streamsUrl) ==> x.result == Failure(URLError(reply.reason)))
      && (HasUrlType(streamsUrl) && reply.Reply? && reply.code != 201 ==> x.result == Success(None))
      && (HasUrlType(streamsUrl) && reply.Reply? && reply.code == 201 && reply.location.None? ==> x.result == Failure(KeyError("location")))
      && (HasUrlType(streamsUrl) && reply.Reply? && reply.code == 201 && reply.location.Some? && reply.body.NotJson? ==>
            x.result == Failure(ValueError))
      && (HasUrlType(streamsUrl) && reply.Reply? && reply.code == 201 && reply.location.Some? && reply.body.JsonArray? ==>
            x.result == Failure(AttributeError("get")))
      && (HasUrlType(streamsUrl) && reply.Reply? && reply.code == 201 && reply.location.Some? && reply.body.JsonObject? ==>
            x.result == Success(reply.location))
  {
  }

  /**
   * A failed lookup ends the resolution: the ValueError of a lookup URL without a type (with
   * nothing sent), or, once the GET is sent, its URL error, the ValueError of a body that is
   * not JSON, or the KeyError of a non-empty object, is raised and nothing is created.
   */
  lemma ResolveLookupErrorStops(streamsUrl: string, name: string, server: Server)
    requires LookupStreamUrl(streamsUrl, name, server).result.Failure?
    ensures var x := ResolveStreamUrl(streamsUrl, name, server);
      var url := LookupUrl(streamsUrl, name);
      var reply := server(Get(url));
      x.sent == (if HasUrlType(url) then [Get(url)] else [])
      && x.result == LookupStreamUrl(streamsUrl, name, server).result
      && (!HasUrlType(url) ==> x.result == Failure(ValueError))
      && (HasUrlType(url) && reply.UrlError? ==> x.result == Failure(URLError(reply.reason)))
      && (HasUrlType(url) && reply.Reply? && reply.body.NotJson? ==> x.result == Failure(ValueError))
      && (HasUrlType(url) && reply.Reply? && reply.body.JsonObject? ==> x.result == Failure(KeyError("0")))
  {
  }

  // ---------------------------------------------------------------------------
  // The record transform
  // ---------------------------------------------------------------------------

  /** `dict((x, metric_record.get(x)) for x in obs_types)`. */
  function Abridged(metric: Record, obsTypes: seq<string>): (a: Record)
    ensures a.Keys == set x | x in obsTypes
  {
    map x | x in obsTypes :: PyGet(metric, x)
  }

  /**
   * `record['dateTime'] * 1000`, or the exception it raises: a KeyError when the record has no
   * time, a TypeError when its time is None.
   */
  function Millis(record: Record): (r: Result<PyValue, PyError>)
    ensures "dateTime" !in record ==> r == Failure(KeyError("dateTime"))
    ensures "dateTime" in record && record["dateTime"].PyNone? ==> r == Failure(TypeError)
    ensures "dateTime" in record && record["dateTime"].PyInt? ==> r == Success(PyInt(1000 * record["dateTime"].i))
    ensures "dateTime" in record && record["dateTime"].PyFloat? ==> r == Success(PyFloat(1000.0 * record["dateTime"].x))
  {
    if "dateTime" !in record then Failure(KeyError("dateTime"))
    else match record["dateTime"]
      case PyInt(i) => Success(PyInt(i * 1000))
      case PyFloat(x) => Success(PyFloat(x * 1000.0))
      case PyNone => Failure(TypeError)
  }

  /**
   * The dictionary the rename loop builds after visiting `keys` of `src` in that order:
   * each visited key writes its value under its renamed key, so a later key wins a clash.
   */
  function Renamed(src: Record, keys: seq<string>): Record
    requires forall i :: 0 <= i < |keys| ==> keys[i] in src
  {
    if keys == [] then map[]
    else Renamed(src, keys[..|keys| - 1])[MapName(keys[|keys| - 1]) := src[keys[|keys| - 1]]]
  }

  /** One more step of the renaming loop. */
  lemma RenamedStep(src: Record, keys: seq<string>, i: nat)
    requires forall j :: 0 <= j < |keys| ==> keys[j] in src
    requires i < |keys|
    ensures Renamed(src, keys[..i + 1]) == Renamed(src, keys[..i])[MapName(keys[i]) := src[keys[i]]]
  {
    assert keys[..i + 1][..i] == keys[..i];
  }

  /** Every visited key, and nothing else, is present under its renamed key. */
  lemma {:induction false} RenamedKeys(src: Record, keys: seq<string>)
    requires forall i :: 0 <= i < |keys| ==> keys[i] in src
    ensures Renamed(src, keys).Keys == set k | k in keys :: MapName(k)
  {
    if keys != [] {
      var init := keys[..|keys| - 1];
      RenamedKeys(src, init);
      assert keys == init + [keys[|keys| - 1]];
    }
  }

  /** A visited key whose renamed key no later key shares carries its own value. */
  lemma {:induction false} RenamedLastWriter(src: Record, keys: seq<string>, j: nat)
    requires forall i :: 0 <= i < |keys| ==> keys[i] in src
    requires j < |keys|
    requires forall i :: j < i < |keys| ==> MapName(keys[i]) != MapName(keys[j])
    ensures MapName(keys[j]) in Renamed(src, keys)
    ensures Renamed(src, keys)[MapName(keys[j])] == src[keys[j]]
  {
    if j < |keys| - 1 {
      RenamedLastWriter(src, keys[..|keys| - 1], j);
    }
  }

  /** No two of the keys are renamed to the same name. */
  predicate RenameInjective(s: set<string>) {
    forall a, b :: a in s && b in s && MapName(a) == MapName(b) ==> a == b
  }

  /** Without clashes, every key's value arrives under its renamed key, in any iteration order. */
  lemma RenamedInjective(src: Record, keys: seq<string>)
    requires IsEnumeration(keys, src.Keys) && RenameInjective(src.Keys)
    ensures Renamed(src, keys).Keys == set k | k in src :: MapName(k)
    ensures forall k :: k in src ==> Renamed(src, keys)[MapName(k)] == src[k]
  {
    RenamedKeys(src, keys);
    assert (set k | k in keys :: MapName(k)) == set k | k in src :: MapName(k);
    forall k | k in src
      ensures Renamed(src, keys)[MapName(k)] == src[k]
    {
      RenamedCarries(src, keys, k);
    }
  }

  /** Without clashes, a key of the record arrives with its own value. */
  lemma RenamedCarries(src: Record, keys: seq<string>, k: string)
    requires IsEnumeration(keys, src.Keys) && RenameInjective(src.Keys)
    requires k in src
    ensures MapName(k) in Renamed(src, keys) && Renamed(src, keys)[MapName(k)] == src[k]
  {
    var j :| 0 <= j < |keys| && keys[j] == k;
    forall i | j < i < |keys|
      ensures MapName(keys[i]) != MapName(keys[j])
    {
      assert keys[i] != keys[j];
    }
    RenamedLastWriter(src, keys, j);
  }

  /** Without clashes the payload does not depend on the order in which the dict is iterated. */
  lemma RenamedOrderIndependent(src: Record, keys1: seq<string>, keys2: seq<string>)
    requires IsEnumeration(keys1, src.Keys) && IsEnumeration(keys2, src.Keys)
    requires RenameInjective(src.Keys)
    ensures Renamed(src, keys1) == Renamed(src, keys2)
  {
    RenamedInjective(src, keys1);
    RenamedInjective(src, keys2);
  }

  /** Only the key `timestamp` is renamed to `timestamp`. */
  lemma OnlyTimestampIsTimestamp(k: string)
    ensures MapName(k) == "timestamp" <==> k == "timestamp"
  {
    if k in NameMap {
      assert NameMap[k] in NameMap.Values;
      assert "timestamp" !in NameMap.Values;
    }
  }

  /** The dictionary `process_record` builds before the rename, once the timestamp is known. */
  function Stamped(metric: Record, obsTypes: seq<string>, millis: PyValue): (a: Record)
    ensures a.Keys == (set x | x in obsTypes) + {"timestamp"}
  {
    Abridged(metric, obsTypes)["timestamp" := millis]
  }

  /** The payload has one key per selected observation, renamed when the table has it, plus `timestamp`. */
  lemma PayloadKeys(metric: Record, obsTypes: seq<string>, millis: PyValue, order: seq<string>)
    requires IsEnumeration(order, Stamped(metric, obsTypes, millis).Keys)
    ensures Renamed(Stamped(metric, obsTypes, millis), order).Keys
         == (set x | x in obsTypes :: MapName(x)) + {"timestamp"}
  {
    var src := Stamped(metric, obsTypes, millis);
    RenamedKeys(src, order);
    var lhs := set k | k in order :: MapName(k);
    var rhs := (set x | x in obsTypes :: MapName(x)) + {"timestamp"};
    forall k | k in order ensures MapName(k) in rhs {
      if k == "timestamp" {
        OnlyTimestampIsTimestamp(k);
      } else {
        assert k in obsTypes;
      }
    }
    assert "timestamp" in src;
    OnlyTimestampIsTimestamp("timestamp");
    assert "timestamp" in lhs;
    forall x | x in obsTypes ensures MapName(x) in lhs {
      assert x in src;
    }
  }

  /** The payload's `timestamp` is the record's time in milliseconds, whatever the selection holds. */
  lemma PayloadTimestamp(metric: Record, obsTypes: seq<string>, millis: PyValue, order: seq<string>)
    requires IsEnumeration(order, Stamped(metric, obsTypes, millis).Keys)
    ensures "timestamp" in Renamed(Stamped(metric, obsTypes, millis), order)
    ensures Renamed(Stamped(metric, obsTypes, millis), order)["timestamp"] == millis
  {
    var src := Stamped(metric, obsTypes, millis);
    assert "timestamp" in src;
    var j :| 0 <= j < |order| && order[j] == "timestamp";
    OnlyTimestampIsTimestamp("timestamp");
    forall i | j < i < |order| ensures MapName(order[i]) != MapName(order[j]) {
      OnlyTimestampIsTimestamp(order[i]);
    }
    RenamedLastWriter(src, order, j);
  }

  /**
   * A selected observation other than `timestamp` that shares its renamed key with no other
   * selected observation arrives with the converted record's value, None when the record lacks it.
   */
  lemma PayloadValue(metric: Record, obsTypes: seq<string>, millis: PyValue, order: seq<string>, x: string)
    requires IsEnumeration(order, Stamped(metric, obsTypes, millis).Keys)
    requires x in obsTypes && x != "timestamp"
    requires forall y :: y in obsTypes && MapName(y) == MapName(x) ==> y == x
    ensures MapName(x) in Renamed(Stamped(metric, obsTypes, millis), order)
    ensures Renamed(Stamped(metric, obsTypes, millis), order)[MapName(x)] == PyGet(metric, x)
  {
    var src := Stamped(metric, obsTypes, millis);
    assert x in src;
    var j :| 0 <= j < |order| && order[j] == x;
    OnlyTimestampIsTimestamp(x);
    forall i | j < i < |order| ensures MapName(order[i]) != MapName(x) {
      OnlyTimestampIsTimestamp(order[i]);
      if order[i] != "timestamp" {
        assert order[i] in obsTypes;
      }
    }
    RenamedLastWriter(src, order, j);
  }

  /** Observations the configuration does not select have no influence on the payload. */
  lemma PayloadIgnoresUnselected(m1: Record, m2: Record, obsTypes: seq<string>, millis: PyValue, order: seq<string>)
    requires forall x :: x in obsTypes ==> PyGet(m1, x) == PyGet(m2, x)
    requires IsEnumeration(order, Stamped(m1, obsTypes, millis).Keys)
    ensures IsEnumeration(order, Stamped(m2, obsTypes, millis).Keys)
    ensures Renamed(Stamped(m1, obsTypes, millis), order) == Renamed(Stamped(m2, obsTypes, millis), order)
  {
    assert Stamped(m1, obsTypes, millis) == Stamped(m2, obsTypes, millis);
  }

  /** The inverse of the rename table, which shows the table sends different names to different names. */
  function Unmap(name: string): string {
    if name == "outside_temperature" then "outTemp"
    else if name == "dewpoint_temperature" then "dewpoint"
    else if name == "inside_temperature" then "inTemp"
    else if name == "outside_humidity" then "outHumidity"
    else if name == "barometer_pressure" then "barometer"
    else if name == "wind_speed" then "windSpeed"
    else if name == "wind_direction" then "windDir"
    else if name == "day_rain" then "dayRain"
    else name
  }

  /** The default selection, with `timestamp` added, renames without clashes. */
  lemma DefaultRenameInjective()
    ensures RenameInjective((set x | x in DefaultObsTypes) + {"timestamp"})
  {
    var keys := (set x | x in DefaultObsTypes) + {"timestamp"};
    forall a | a in keys ensures Unmap(MapName(a)) == a {
      assert a in DefaultObsTypes || a == "timestamp";
    }
  }

  /** The default selection renames without clashes, so its payload is the same in every dict order. */
  lemma DefaultPayloadOrderIndependent(metric: Record, millis: PyValue, o1: seq<string>, o2: seq<string>)
    requires IsEnumeration(o1, Stamped(metric, DefaultObsTypes, millis).Keys)
    requires IsEnumeration(o2, Stamped(metric, DefaultObsTypes, millis).Keys)
    ensures Renamed(Stamped(metric, DefaultObsTypes, millis), o1)
         == Renamed(Stamped(metric, DefaultObsTypes, millis), o2)
  {
    DefaultRenameInjective();
    RenamedOrderIndependent(Stamped(metric, DefaultObsTypes, millis), o1, o2);
  }

  /** The post `process_record` hands to the retrying sender: the packets URL and the payload. */
  datatype PacketPost = PacketPost(url: string, payload: Record)

  /** The upload thread, as far as this file sets it up: the selection and the packets URL. */
  class WeeRTThread {
    var obsTypes: seq<string>
    /** `self.packets_url`; None when the constructor returned before setting it. */
    var packetsUrl: Option<string>
    /** The requests the constructor sent to the server, in order. */
    var sent: seq<Request>
    /**
     * The exception that escapes the constructor, if any: resolution raised something other
     * than the URLError the constructor catches. The service then fails to start.
     */
    var raised: Option<PyError>

    /**
     * A server URL `urlsplit` rejects raises a ValueError before anything is sent. With a
     * stream id, the packets URL is formed from it and no request is sent. Otherwise the name
     * is resolved; a URL error, or a resolution that yields nothing, leaves the packets URL
     * unset; any other exception of the resolution escapes: the KeyError of a created stream
     * without `Location` or of a non-empty object, the ValueError of a body that is not JSON or
     * of a server URL whose scheme `urljoin` does not resolve against (nothing is then sent),
     * the AttributeError of a created stream given as an array. (The lookup's own `urljoin`
     * does not raise: the endpoint has the server URL's network location, or none.)
     */
    constructor (cfg: ThreadConfig, server: Server)
      requires CanConstruct(cfg)
      ensures obsTypes == cfg.obsTypes
      ensures UrlParse.SplitRaises(cfg.serverUrl) ==> sent == [] && raised == Some(ValueError) && packetsUrl == None
      ensures !UrlParse.SplitRaises(cfg.serverUrl) && Given(cfg.streamId) ==>
        sent == [] && raised == None
        && packetsUrl == Some(PacketsUrl(StreamIdUrl(StreamsUrl(cfg.serverUrl), cfg.streamId.value)))
      ensures !UrlParse.SplitRaises(cfg.serverUrl) && !Given(cfg.streamId) ==>
        var x := ResolveStreamUrl(StreamsUrl(cfg.serverUrl), cfg.streamName.value, server);
        sent == x.sent
        && raised == (if x.result.Failure? && !x.result.error.URLError? then Some(x.result.error) else None)
        && packetsUrl == (if x.result.Success? && Given(x.result.value)
                          then Some(PacketsUrl(x.result.value.value)) else None)
      ensures var scheme := UrlParse.Scheme(cfg.serverUrl);
        !UrlParse.SplitRaises(cfg.serverUrl) && !Given(cfg.streamId)
        && (scheme == "" || !UrlParse.Listed(UrlParse.UsesRelative, scheme)) ==>
        sent == [] && raised == Some(ValueError) && packetsUrl == None
    {
      obsTypes := cfg.obsTypes;
      var streamsUrl := StreamsUrl(cfg.serverUrl);
      raised := None;
      if UrlParse.SplitRaises(cfg.serverUrl) {
        sent := [];
        raised := Some(ValueError);
        packetsUrl := None;
      } else if Given(cfg.streamId) {
        sent := [];
        packetsUrl := Some(PacketsUrl(StreamIdUrl(streamsUrl, cfg.streamId.value)));
      } else {
        var x := ResolveStreamUrl(streamsUrl, cfg.streamName.value, server);
        LookupUrlTypeIff(cfg.serverUrl, cfg.streamName.value);
        sent := x.sent;
        if x.result.Failure? && !x.result.error.URLError? {
          raised := Some(x.result.error);
        }
        if x.result.Failure? || !Given(x.result.value) {
          packetsUrl := None;
        } else {
          packetsUrl := Some(PacketsUrl(x.result.value.value));
        }
      }
    }

    /**
     * `process_record`: fetch the full record, convert it to METRICWX, keep the selected
     * observations, add the millisecond timestamp, and rename the keys in the dict's iteration
     * order `order`; the result is the post to send, or the exception raised on the way.
     */
    method ProcessRecord(record: Record, getRecord: Record -> Record, toMetric: Record -> Record,
                         order: seq<string>)
      returns (r: Result<PacketPost, PyError>)
      requires IsEnumeration(order, (set x | x in obsTypes) + {"timestamp"})
      ensures Millis(record).Failure? ==> r == Failure(Millis(record).error)
      ensures Millis(record).Success? && packetsUrl.None? ==> r == Failure(AttributeError("packets_url"))
      ensures Millis(record).Success? && packetsUrl.Some? ==>
        r == Success(PacketPost(packetsUrl.value,
                                Renamed(Stamped(toMetric(getRecord(record)), obsTypes, Millis(record).value), order)))
    {
      var metric := toMetric(getRecord(record));
      var abridged := Abridged(metric, obsTypes);
      var millis := Millis(record);
      if millis.Failure? {
        return Failure(millis.error);
      }
      abridged := abridged["timestamp" := millis.value];
      assert abridged == Stamped(metric, obsTypes, millis.value);
      assert forall j :: 0 <= j < |order| ==> order[j] in abridged;
      var mapped: Record := map[];
      var i := 0;
      while i < |order|
        invariant 0 <= i <= |order|
        invariant mapped == Renamed(abridged, order[..i])
      {
        RenamedStep(abridged, order, i);
        mapped := mapped[MapName(order[i]) := abridged[order[i]]];
        i := i + 1;
      }
      assert order[..|order|] == order;
      if packetsUrl.None? {
        return Failure(AttributeError("packets_url"));
      }
      return Success(PacketPost(packetsUrl.value, mapped));
    }

    /**
     * `checkresponse`: status 201 is success; otherwise the first body line that starts with
     * `Error` is raised as a failed post (Some), and a body without such a line is accepted (None).
     */
    method CheckResponse(code: int, lines: seq<string>) returns (failure: Option<string>)
      ensures code == 201 ==> failure == None
      ensures code != 201 && failure.Some? ==>
        exists i :: 0 <= i < |lines| && lines[i] == failure.value && StartsWith(lines[i], "Error")
          && forall j :: 0 <= j < i ==> !StartsWith(lines[j], "Error")
      ensures code != 201 && failure.None? ==> forall i :: 0 <= i < |lines| ==> !StartsWith(lines[i], "Error")
    {
      if code == 201 {
        return None;
      }
      var i := 0;
      while i < |lines|
        invariant 0 <= i <= |lines|
        invariant forall j :: 0 <= j < i ==> !StartsWith(lines[j], "Error")
      {
        if StartsWith(lines[i], "Error") {
          return Some(lines[i]);
        }
        i := i + 1;
      }
      return None;
    }
  }
}
