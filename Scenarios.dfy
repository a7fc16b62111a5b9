/**
 * Client-side uses of the contracts, in the manner of a caller:
 * each method drives a client against a scripted transport and asserts only
 * what the contracts let a caller conclude.
 */
module Scenarios {
  import opened Wrappers
  import opened Text
  import Json
  import Response
  import opened KeenClient

  /** Without an API key, publish fails with a configuration error and the transport sees no request. */
  method PublishWithoutKeySendsNothing(p: Platform, properties: Json.Value) {
    var client := new Client(map["project_id" := Some("p")]);
    var transport := new Transport(_ => Response.Received(201, []));
    var r := client.Publish(p, transport, "purchases", properties);
    assert r == Failure(Response.ConfigurationError("API Key must be set"));
    assert transport.sent == [];
  }

  /** An empty API key is accepted: the request goes out carrying the empty key. */
  method EmptyKeyIsSent(p: Platform, properties: Json.Value) {
    var client := new Client(map["project_id" := Some("p"), "api_key" := Some("")]);
    var transport := new Transport(_ => Response.Raised("connection refused"));
    var r := client.Publish(p, transport, "purchases", properties);
    assert |transport.sent| == 1 && transport.sent[0].headers["Authorization"] == "";
    assert r.Failure? && r.error.IsHttpError();
  }

  /** A 401 whose body parses is an authentication error carrying that body. */
  method RejectedKey(p: Platform, properties: Json.Value, body: Bytes, message: Json.Value)
    requires p.json.decode(body) == Some(message)
    requires !EndsWithLineBreak(body)
  {
    var client := new Client.Legacy(Some("p"), Some("k"), None);
    var transport := new Transport(_ => Response.Received(401, body + [LF]));
    var r := client.Publish(p, transport, "purchases", properties);
    Response.TrailingLineBreakIgnored(p.json, 401, body, [LF]);
    assert r == Failure(Response.AuthenticationError(message));
  }

  /** In the positional form, keys of the third argument override the first two arguments. */
  method LegacyExtraOptionsWin() {
    var client := new Client.Legacy(Some("a"), Some("k"), Some(map["project_id" := Some("b")]));
    assert client.projectId == Some("b") && client.apiKey == Some("k");
    var cleared := new Client.Legacy(Some("a"), Some("k"), Some(map["api_key" := None]));
    assert cleared.apiKey == None;
  }
}
