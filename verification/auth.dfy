/**
 * The server's sample authorisation schemes: `insecure`, which allows everything,
 * and `simple`, a permission matrix over user groups, HTTP verbs and endpoints.
 *
 * Both return a promise; here the promise's outcome is the result: resolved
 * with true (Granted) or false (Denied), or rejected with an error (Rejected).
 */
module Auth {

  datatype Decision = Granted | Denied | Rejected(message: string)

  /** `insecure(usergroup, verb, endpoint)`: every request is allowed. */
  function Insecure(group: string, verb: string, endpoint: string): (d: Decision)
    ensures d == Granted
  {
    Granted
  }

  /** The permission matrix of the groups with explicit rights. */
  const Groups: map<string, map<string, bool>> := map[
    "admin" := map["DELETE" := true, "POST" := true, "PUT" := true, "GET" := true],
    "field" := map["DELETE" := false, "POST" := true, "PUT" := true, "GET" := true]]

  // ---------------------------------------------------------------------------
  // The two endpoint patterns
  // ---------------------------------------------------------------------------

  /** The characters of `[0-9a-f]`: lower-case hexadecimal digits only. */
  predicate IsLowerHex(c: char) {
    ('0' <= c <= '9') || ('a' <= c <= 'f')
  }

  predicate AllLowerHex(s: string) {
    forall i :: 0 <= i < |s| ==> IsLowerHex(s[i])
  }

  /** Length of the longest prefix of lower-case hexadecimal digits. */
  function HexRun(s: string): (k: nat)
    ensures k <= |s| && AllLowerHex(s[..k])
    ensures k < |s| ==> !IsLowerHex(s[k])
  {
    if s != [] && IsLowerHex(s[0]) then
      var k := 1 + HexRun(s[1..]);
      assert s[..k] == [s[0]] + s[1..][..k - 1];
      k
    else 0
  }

  /** The endpoint without its optional leading slash. */
  function StripLeadingSlash(endpoint: string): string {
    if |endpoint| > 0 && endpoint[0] == '/' then endpoint[1..] else endpoint
  }

  /** What follows `<collection>/`: a non-empty hex id, then `/<member>` and an optional `/`. */
  predicate MatchesIdTail(rest: string, member: string) {
    var k := HexRun(rest);
    k > 0 && (rest[k..] == "/" + member || rest[k..] == "/" + member + "/")
  }

  /**
   * The test of `^/?<collection>/[0-9a-f]+/<member>/?$` on an endpoint: an optional leading
   * slash, the collection, a non-empty lower-case hex id, the member name, an optional
   * trailing slash, and nothing else.
   */
  predicate MatchesIdPath(endpoint: string, collection: string, member: string) {
    var body := StripLeadingSlash(endpoint);
    |collection| + 1 <= |body| && body[..|collection| + 1] == collection + "/"
    && MatchesIdTail(body[|collection| + 1..], member)
  }

  /** `re_packet`: `/streams/<hex id>/packets`. */
  predicate IsPacketPath(endpoint: string) {
    MatchesIdPath(endpoint, "streams", "packets")
  }

  /** `re_location`: `/platforms/<hex id>/locations`. */
  predicate IsLocationPath(endpoint: string) {
    MatchesIdPath(endpoint, "platforms", "locations")
  }

  function Slash(present: bool): string {
    if present then "/" else ""
  }

  /** The endpoints the pattern describes, written out piece by piece. */
  predicate IsIdPath(endpoint: string, collection: string, member: string,
                     leading: bool, id: string, trailing: bool) {
    id != [] && AllLowerHex(id)
    && endpoint == Slash(leading) + collection + "/" + id + "/" + member + Slash(trailing)
  }

  lemma {:induction false} HexRunOfId(id: string, s: string)
    requires AllLowerHex(id) && |id| < |s| && s[..|id|] == id && s[|id|] == '/'
    ensures HexRun(s) == |id|
  {
    if id != [] {
      assert s[1..][..|id| - 1] == id[1..];
      HexRunOfId(id[1..], s[1..]);
    }
  }

  lemma IdTailMatches(id: string, member: string, trailing: bool)
    requires id != [] && AllLowerHex(id)
    ensures MatchesIdTail(id + "/" + member + Slash(trailing), member)
  {
    var rest := id + "/" + member + Slash(trailing);
    assert rest[..|id|] == id;
    HexRunOfId(id, rest);
    assert rest[|id|..] == "/" + member + Slash(trailing);
  }

  /** Every endpoint of the described form matches the pattern. */
  lemma IdPathMatches(endpoint: string, collection: string, member: string,
                      leading: bool, id: string, trailing: bool)
    requires collection != [] && collection[0] != '/'
    requires IsIdPath(endpoint, collection, member, leading, id, trailing)
    ensures MatchesIdPath(endpoint, collection, member)
  {
    var tail := id + "/" + member + Slash(trailing);
    var body := collection + "/" + tail;
    assert endpoint == Slash(leading) + body;
    assert StripLeadingSlash(endpoint) == body by {
      if leading {
        assert endpoint[1..] == body;
      } else {
        assert endpoint == body;
      }
    }
    assert body[..|collection| + 1] == collection + "/";
    assert body[|collection| + 1..] == tail;
    IdTailMatches(id, member, trailing);
  }

  lemma LeadingSlashSplit(endpoint: string)
    ensures endpoint == Slash(|endpoint| > 0 && endpoint[0] == '/') + StripLeadingSlash(endpoint)
  {
    if |endpoint| > 0 && endpoint[0] == '/' {
      assert endpoint == [endpoint[0]] + endpoint[1..];
    }
  }

  lemma IdTailSplit(rest: string, member: string)
    requires MatchesIdTail(rest, member)
    ensures rest == rest[..HexRun(rest)] + "/" + member + Slash(rest[HexRun(rest)..] == "/" + member + "/")
  {
    var k := HexRun(rest);
    assert rest == rest[..k] + rest[k..];
  }

  /** Every matching endpoint has the described form, with the id as written in it. */
  lemma MatchesIsIdPath(endpoint: string, collection: string, member: string)
    requires MatchesIdPath(endpoint, collection, member)
    ensures var leading := |endpoint| > 0 && endpoint[0] == '/';
      var rest := StripLeadingSlash(endpoint)[|collection| + 1..];
      IsIdPath(endpoint, collection, member, leading, rest[..HexRun(rest)], rest[HexRun(rest)..] == "/" + member + "/")
  {
    var leading := |endpoint| > 0 && endpoint[0] == '/';
    var body := StripLeadingSlash(endpoint);
    var rest := body[|collection| + 1..];
    var k := HexRun(rest);
    var trailing := rest[k..] == "/" + member + "/";
    LeadingSlashSplit(endpoint);
    assert body == collection + "/" + rest by {
      assert body == body[..|collection| + 1] + rest;
    }
    IdTailSplit(rest, member);
    Reassemble(endpoint, Slash(leading), collection, body, rest, rest[..k], member, Slash(trailing));
  }

  lemma Reassemble(endpoint: string, lead: string, collection: string, body: string, rest: string,
                   id: string, member: string, trail: string)
    requires endpoint == lead + body && body == collection + "/" + rest && rest == id + "/" + member + trail
    ensures endpoint == lead + collection + "/" + id + "/" + member + trail
  {
    var tail := "/" + member + trail;
    AppendAssoc(id, "/" + member, trail);
    AppendAssoc(id, "/", member);
    assert rest == id + tail;
    AppendAssoc(lead, collection + "/", rest);
    AppendAssoc(lead, collection, "/");
    AppendAssoc(lead + collection + "/", id, tail);
    AppendAssoc(lead + collection + "/" + id, "/" + member, trail);
    AppendAssoc(lead + collection + "/" + id, "/", member);
  }

  lemma AppendAssoc(a: string, b: string, c: string)
    ensures a + (b + c) == a + b + c
  {
  }

  /** The id must be lower-case: an upper-case hex digit fails the pattern. */
  lemma UpperCaseIdRejected()
    ensures !IsPacketPath("/streams/AB/packets")
  {
    var rest := "AB/packets";
    assert HexRun(rest) == 0;
    assert "/streams/AB/packets"[1..][8..] == rest;
  }

  // ---------------------------------------------------------------------------
  // The `simple` scheme
  // ---------------------------------------------------------------------------

  /**
   * `simple(usergroup, verb, endpoint)`, with the data-stream test as written:
   * `verb === 'POST' && packet || location` groups as `(POST and packet) or location`.
   *
   * HTTP verbs are method names, which never coincide with the properties every
   * JavaScript object inherits, so `in` is a plain key test here.
   */
  function Simple(group: string, verb: string, endpoint: string): (d: Decision)
    ensures verb == "GET" ==> d == Granted
    ensures d.Rejected? ==> d.message == "Unknown usergroup or verb"
  {
    if verb == "GET" then Granted
    else if group == "datastream" then
      if (verb == "POST" && IsPacketPath(endpoint)) || IsLocationPath(endpoint) then Granted else Denied
    else if group in Groups && verb in Groups[group] then
      if Groups[group][verb] then Granted else Denied
    else Rejected("Unknown usergroup or verb")
  }

  /**
   * A data stream may post packets to a stream, and may do anything at all to a platform's
   * locations; every other request of a data stream (GET aside) is denied.
   */
  lemma DatastreamAsWritten(verb: string, endpoint: string)
    requires verb != "GET"
    ensures Simple("datastream", verb, endpoint) == Granted
      <==> (verb == "POST" && IsPacketPath(endpoint)) || IsLocationPath(endpoint)
    ensures Simple("datastream", verb, endpoint) != Granted ==> Simple("datastream", verb, endpoint) == Denied
  {
  }

  /** As written, a data stream is granted DELETE on a platform's locations. */
  lemma DatastreamMayDeleteLocations()
    ensures Simple("datastream", "DELETE", "/platforms/5a1f/locations") == Granted
  {
    IdPathMatches("/platforms/5a1f/locations", "platforms", "locations", true, "5a1f", false);
  }

  /** The rule the comment describes: a data stream may only post packets or locations. */
  function SimpleCorrected(group: string, verb: string, endpoint: string): (d: Decision)
    ensures verb == "GET" ==> d == Granted
    ensures group == "datastream" && verb != "GET" ==>
      (d == Granted <==> verb == "POST" && (IsPacketPath(endpoint) || IsLocationPath(endpoint)))
    ensures group != "datastream" ==> d == Simple(group, verb, endpoint)
  {
    if verb == "GET" then Granted
    else if group == "datastream" then
      if verb == "POST" && (IsPacketPath(endpoint) || IsLocationPath(endpoint)) then Granted else Denied
    else Simple(group, verb, endpoint)
  }

  /** With the correction, a data stream is granted nothing but GET and POST. */
  lemma CorrectedDatastreamOnlyPosts(verb: string, endpoint: string)
    requires SimpleCorrected("datastream", verb, endpoint) == Granted
    ensures verb == "GET" || verb == "POST"
  {
  }

  /**
   * The explicit matrix: `admin` may DELETE, POST and PUT; `field` may POST and PUT but not
   * DELETE; and any other verb of a listed group is rejected.
   */
  lemma MatrixRights(endpoint: string)
    ensures Simple("admin", "DELETE", endpoint) == Granted
    ensures Simple("admin", "POST", endpoint) == Granted
    ensures Simple("admin", "PUT", endpoint) == Granted
    ensures Simple("field", "DELETE", endpoint) == Denied
    ensures Simple("field", "POST", endpoint) == Granted
    ensures Simple("field", "PUT", endpoint) == Granted
    ensures Simple("admin", "PATCH", endpoint) == Rejected("Unknown usergroup or verb")
  {
  }

  /** A group outside the matrix, other than `datastream`, is rejected for every verb but GET. */
  lemma UnknownGroupRejected(group: string, verb: string, endpoint: string)
    requires group != "datastream" && group != "admin" && group != "field" && verb != "GET"
    ensures Simple(group, verb, endpoint) == Rejected("Unknown usergroup or verb")
  {
  }
}
