/**
 * The client object: two mutable identity fields, the constructor's two
 * argument forms, the configuration check, the blocking publish and the
 * beacon URL.
 */
module KeenClient {
  import opened Wrappers
  import opened Text
  import Json
  import Config
  import Base64
  import Beacon
  import Response

  /** An options hash, keyed by symbol name; a key bound to nil maps to None. */
  type Options = map<string, Option<string>>

  /** `Hash#values_at` for one key: a missing key reads as nil. */
  function Fetch(o: Options, key: string): (v: Option<string>)
    ensures key !in o ==> v == None
    ensures key in o ==> v == o[key]
  {
    if key in o then o[key] else None
  }

  /**
   * The hash the deprecated positional form builds: the first two arguments
   * under `:project_id` and `:api_key`, merged with the optional third hash,
   * whose entries win.
   */
  function LegacyOptions(projectId: Option<string>, apiKey: Option<string>, extra: Option<Options>): (o: Options)
    ensures Fetch(o, "project_id")
      == if extra.Some? && "project_id" in extra.value then extra.value["project_id"] else projectId
    ensures Fetch(o, "api_key")
      == if extra.Some? && "api_key" in extra.value then extra.value["api_key"] else apiKey
  {
    map["project_id" := projectId, "api_key" := apiKey]
      + (match extra case Some(e) => e case None => map[])
  }

  /** The environment a client runs in: the JSON library and the metadata reported in the User-Agent. */
  datatype Platform = Platform(json: Json.Codec, runtime: Config.Runtime)

  /** A POST as handed to the transport: where it goes and what it carries. */
  datatype Request = Request(
    host: string, port: nat, path: string, headers: map<string, string>, body: Bytes)

  /** The request a blocking publish sends for an event. */
  function PublishRequest(p: Platform, projectId: string, apiKey: string,
                          collection: string, properties: Json.Value): (r: Request)
    ensures r.host == "api.keen.io" && r.port == 443
    ensures r.path == "/3.0/projects/" + projectId + "/events/" + collection
    ensures r.headers.Keys == {"Content-Type", "User-Agent", "Authorization"}
    ensures r.headers["Content-Type"] == "application/json"
    ensures r.headers["User-Agent"] == Config.UserAgent(p.runtime, Config.Sync)
    ensures r.headers["Authorization"] == apiKey
    ensures r.body == p.json.encode(properties)
  {
    var path := Config.ApiPath(Config.Defaults.apiVersion, projectId, collection);
    assert path == "/3.0/projects/" + projectId + "/events/" + collection;
    Request(Config.Defaults.apiHost, Config.Defaults.apiPort, path,
            Config.ApiHeadersWithAuth(p.runtime, Config.Sync, apiKey), p.json.encode(properties))
  }

  /** With a JSON library that round-trips, the request body parses back to the event's properties. */
  lemma PublishBodyRoundTrips(p: Platform, projectId: string, apiKey: string,
                              collection: string, properties: Json.Value)
    requires Json.RoundTripsOn(p.json, properties)
    ensures p.json.decode(PublishRequest(p, projectId, apiKey, collection, properties).body)
         == Some(properties)
  {
  }

  /**
   * The blocking transport, reduced to what the client can observe: it
   * records every request it is given and answers each one as `peer` says.
   */
  class Transport {
    var sent: seq<Request>
    const peer: Request -> Response.Reply

    constructor (peer: Request -> Response.Reply)
      ensures sent == [] && this.peer == peer
    {
      sent := [];
      this.peer := peer;
    }

    method Post(request: Request) returns (reply: Response.Reply)
      modifies this
      ensures sent == old(sent) + [request]
      ensures reply == peer(request)
    {
      sent := sent + [request];
      reply := peer(request);
    }
  }

  class Client {
    var projectId: Option<string>
    var apiKey: Option<string>

    /** The hash form: `Client.new(:project_id => ..., :api_key => ...)`. */
    constructor (options: Options)
      ensures projectId == Fetch(options, "project_id")
      ensures apiKey == Fetch(options, "api_key")
    {
      projectId := Fetch(options, "project_id");
      apiKey := Fetch(options, "api_key");
    }

    /** The deprecated positional form: `Client.new(project_id, api_key, extra_options)`. */
    constructor Legacy(projectId: Option<string>, apiKey: Option<string>, extra: Option<Options>)
      ensures this.projectId == Fetch(LegacyOptions(projectId, apiKey, extra), "project_id")
      ensures this.apiKey == Fetch(LegacyOptions(projectId, apiKey, extra), "api_key")
    {
      var options := LegacyOptions(projectId, apiKey, extra);
      this.projectId := Fetch(options, "project_id");
      this.apiKey := Fetch(options, "api_key");
    }

    method SetProjectId(v: Option<string>)
      modifies this`projectId
      ensures projectId == v
    {
      projectId := v;
    }

    method SetApiKey(v: Option<string>)
      modifies this`apiKey
      ensures apiKey == v
    {
      apiKey := v;
    }

    /**
     * `check_configuration!`: None when the client may talk to the service.
     * Only nil is rejected (an empty string passes), and the project id is
     * checked first.
     */
    function CheckConfiguration(): (r: Option<Response.Error>)
      reads this
      ensures r.None? <==> projectId.Some? && apiKey.Some?
      ensures projectId.None? ==> r == Some(Response.ConfigurationError("Project ID must be set"))
      ensures projectId.Some? && apiKey.None? ==> r == Some(Response.ConfigurationError("API Key must be set"))
    {
      if projectId.None? then Some(Response.ConfigurationError("Project ID must be set"))
      else if apiKey.None? then Some(Response.ConfigurationError("API Key must be set"))
      else None
    }

    /**
     * `publish`: checks the configuration before touching the transport,
     * sends one request, and settles the reply. A client that is not
     * configured sends nothing.
     */
    method Publish(p: Platform, transport: Transport, collection: string, properties: Json.Value)
      returns (r: Result<Json.Value, Response.Error>)
      modifies transport
      ensures CheckConfiguration().Some? ==>
        r == Failure(CheckConfiguration().value) && transport.sent == old(transport.sent)
      ensures CheckConfiguration().None? ==>
        var request := PublishRequest(p, projectId.value, apiKey.value, collection, properties);
        && transport.sent == old(transport.sent) + [request]
        && r == Response.Settle(p.json, transport.peer(request))
    {
      var failure := CheckConfiguration();
      if failure.Some? {
        return Failure(failure.value);
      }
      var request := PublishRequest(p, projectId.value, apiKey.value, collection, properties);
      var reply := transport.Post(request);
      r := Response.Settle(p.json, reply);
    }

    /**
     * `beacon_url`: no configuration check; a nil project id or API key is
     * interpolated as the empty string. The host is the default one and no
     * port appears.
     */
    function BeaconUrl(p: Platform, collection: string, properties: Json.Value): (url: string)
      reads this
      ensures var json := p.json.encode(properties);
        var path := Config.ApiPath(Config.Defaults.apiVersion, Interpolate(projectId), collection);
        && Beacon.Layout(url, Config.Defaults.apiHost, path, Interpolate(apiKey), Beacon.Data(json))
        && Base64.Decode(Beacon.FromUrlSafe(Beacon.Data(json))) == Some(json)
    {
      var host, version := Config.Defaults.apiHost, Config.Defaults.apiVersion;
      var pid, key := Interpolate(projectId), Interpolate(apiKey);
      var json := p.json.encode(properties);
      Beacon.DataProperties(json);
      Beacon.Url(host, version, pid, key, collection, json)
    }
  }
}
