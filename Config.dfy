/**
 * The client's default table and the request pieces derived from it: the
 * path of an event collection and the header set, which depends on whether
 * the request is sent by the blocking or the non-blocking transport.
 *
 * The source resolves these entries by a catch-all accessor over a constant
 * table; here the table is a record with one field per entry, and the one
 * entry that is a function of the transport mode is the function `ApiHeaders`.
 */
module Config {

  /** The transport a request is built for; its tag is embedded in the User-Agent. */
  datatype Mode = Sync | Async

  function Tag(m: Mode): string {
    match m
    case Sync => "sync"
    case Async => "async"
  }

  /** The non-TLS entries of the default table. */
  datatype Settings = Settings(apiHost: string, apiPort: nat, apiVersion: string)

  const Defaults: Settings := Settings("api.keen.io", 443, "3.0")

  /** The entries a client resolves by name: the service host, the HTTPS port, and API version 3.0. */
  lemma DefaultsAreTheTable()
    ensures Defaults.apiHost == "api.keen.io" && Defaults.apiPort == 443 && Defaults.apiVersion == "3.0"
  {
  }

  /** Library and interpreter metadata that the User-Agent reports, opaque to the model. */
  datatype Runtime = Runtime(
    gemVersion: string, rubyVersion: string, platform: string, patchLevel: string, engine: string)

  function UserAgentPrefix(rt: Runtime): string {
    "keen-gem, v" + rt.gemVersion + ", "
  }

  /** The client-identification header for requests sent in mode `m`. */
  function UserAgent(rt: Runtime, m: Mode): (ua: string)
    ensures |ua| >= |UserAgentPrefix(rt)| + |Tag(m)| + 2
    ensures var n := |UserAgentPrefix(rt)|;
      && ua[..n] == UserAgentPrefix(rt)
      && ua[n..n + |Tag(m)| + 2] == Tag(m) + ", "
  {
    var n := |UserAgentPrefix(rt)|;
    var ua := UserAgentPrefix(rt) + Tag(m) + ", "
      + rt.rubyVersion + ", " + rt.platform + ", " + rt.patchLevel + ", " + rt.engine;
    assert ua[n..n + |Tag(m)| + 2] == Tag(m) + ", ";
    ua
  }

  /** The blocking and the non-blocking transport identify themselves differently. */
  lemma UserAgentTellsModesApart(rt: Runtime)
    ensures UserAgent(rt, Sync) != UserAgent(rt, Async)
  {
  }

  /** The `api_headers` entry of the table, evaluated for mode `m`. */
  function ApiHeaders(rt: Runtime, m: Mode): (h: map<string, string>)
    ensures h.Keys == {"Content-Type", "User-Agent"}
    ensures h["Content-Type"] == "application/json"
    ensures h["User-Agent"] == UserAgent(rt, m)
  {
    map["Content-Type" := "application/json", "User-Agent" := UserAgent(rt, m)]
  }

  /**
   * `Hash#merge("Authorization" => key)`: the key is added or replaced and
   * every other entry is kept as it was.
   */
  function MergeAuthorization(h: map<string, string>, apiKey: string): (r: map<string, string>)
    ensures r.Keys == h.Keys + {"Authorization"}
    ensures r["Authorization"] == apiKey
    ensures forall k :: k in h && k != "Authorization" ==> r[k] == h[k]
  {
    h + map["Authorization" := apiKey]
  }

  /** The headers sent with a publish request: the mode's defaults plus the raw API key. */
  function ApiHeadersWithAuth(rt: Runtime, m: Mode, apiKey: string): (h: map<string, string>)
    ensures h.Keys == {"Content-Type", "User-Agent", "Authorization"}
    ensures h["Content-Type"] == "application/json"
    ensures h["User-Agent"] == UserAgent(rt, m)
    ensures h["Authorization"] == apiKey
  {
    MergeAuthorization(ApiHeaders(rt, m), apiKey)
  }

  function EventsPrefix(version: string, projectId: string): string {
    "/" + version + "/projects/" + projectId + "/events/"
  }

  /** The path of an event collection; neither the project id nor the collection is escaped. */
  function ApiPath(version: string, projectId: string, collection: string): (p: string)
    ensures |p| == |EventsPrefix(version, projectId)| + |collection|
    ensures p[..|EventsPrefix(version, projectId)|] == EventsPrefix(version, projectId)
    ensures p[|EventsPrefix(version, projectId)|..] == collection
  {
    EventsPrefix(version, projectId) + collection
  }

  /** For a fixed project, different collections get different paths. */
  lemma ApiPathDeterminesCollection(version: string, projectId: string, c1: string, c2: string)
    requires ApiPath(version, projectId, c1) == ApiPath(version, projectId, c2)
    ensures c1 == c2
  {
  }

  /**
   * Because nothing is escaped, a project id and a collection that contain
   * "/events/" can produce the same path as a different pair.
   */
  lemma ApiPathIsAmbiguous()
    ensures ApiPath("3.0", "p/events/a", "b") == ApiPath("3.0", "p", "a/events/b")
  {
  }
}
