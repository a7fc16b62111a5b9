# Keen IO Ruby client: publishing core in Dafny

This project models the core of `Keen::Client` from the keen-gem library (`lib/keen/client.rb`):
how the client shapes a publish request (path, headers, body), how it classifies the service's
answer into a result or one of a fixed set of errors, how it encodes an event into a beacon URL,
and how its two identity fields (project id and API key) are set and checked before a blocking
publish.

Modules, one per concern of the client:

- `Wrappers`: `Option` (Ruby's nil) and `Result` (a returned value or a raised exception).
- `Text`: bytes, `String#chomp`, `String#gsub(c, "")`, and `"#{x}"` interpolation of a possibly nil value.
- `Json`: the JSON library as an interface. `Codec` holds a serializer and a parser that may fail.
- `Base64`: `Array#pack("m0")`, the standard alphabet of section 4 of RFC 4648 with `=` padding and no
  line breaks. Its canonical decoder is proved inverse to it in both directions.
- `Config`: the default table as a record (`Settings`, `Defaults`). It replaces the catch-all
  `method_missing` lookup of the source. This module also holds the mode-dependent `User-Agent` and
  header set, the `Authorization` merge, and the collection path.
- `Beacon`: the URL-safe mapping of section 5 of RFC 4648 done with `tr("+/", "-_")`, the `data`
  parameter, and the beacon URL.
- `Response`: the error taxonomy, `process_response`, and how a transport reply settles a blocking
  publish.
- `KeenClient`: the `Client` class (mutable `projectId`/`apiKey`, both constructor forms, setters,
  `check_configuration!`, `publish`, `beacon_url`). `Transport` is a recording stand-in for the
  blocking HTTP transport.
- `Scenarios`: caller-side methods that drive a client against scripted transports and assert
  what the contracts allow a caller to conclude.

Points where the model follows the code's actual behaviour:

- An unparsable response body fails with the JSON library's own parse error (`ParseError`), not
  with an `HttpError`. `process_response` is called outside the `rescue` in `publish`.
- The beacon `data` parameter keeps its `=` padding. The code only applies `tr` and `gsub("\n", "")`.
- `beacon_url` does not check the configuration. A nil project id or API key appears in the URL as
  the empty string.
- `check_configuration!` rejects only nil. An empty project id or API key is accepted.
- Host, port and API version come from the constant table only. There are no per-instance overrides.

## Model

| member | source | states |
|---|---|---|
| `Text.Chomp` | lib/keen/client.rb:58 | the result is the body minus exactly one trailing "\r\n", "\n" or "\r", and the body itself when it has no line terminator |
| `Text.ChompRemovesAppendedLineBreak` | lib/keen/client.rb:58 | appending one line terminator and chomping gives back the original text (unless a "\n" would pair with a trailing "\r") |
| `Text.DeleteAll` | lib/keen/client.rb:29 | `gsub("\n", "")` leaves no newline, keeps every other character with its multiplicity, and is the identity on text without newlines |
| `Text.WithoutCounts` | lib/keen/client.rb:29 | removing a character leaves none of it, never lengthens the text, changes nothing when the character is absent, and keeps every other character's count |
| `Text.WithoutDistributes` | lib/keen/client.rb:29 | removing a character from a concatenation is removing it from each part and concatenating the results |
| `Text.DeleteAllDistributes` | lib/keen/client.rb:29 | `gsub("\n", "")` of a concatenation is the concatenation of the parts' results, so the kept characters stay in their original order |
| `Text.DeleteAllSingle` | lib/keen/client.rb:29 | on a one-character text, `gsub("\n", "")` drops the character exactly when it is a newline |
| `Text.Interpolate` | lib/keen/client.rb:30 | `"#{x}"` of nil is the empty string, and of a string is that string |
| `Base64.SextetChar` | lib/keen/client.rb:29 | each six-bit value maps to a character of the standard alphabet that the inverse table maps back to it; it is never "=", "\n", "-" or "_" |
| `Base64.EncodeQuantum` | lib/keen/client.rb:29 | a final quantum of n bytes becomes n+1 alphabet characters followed by "=" up to four |
| `Base64.Encode` | lib/keen/client.rb:29 | `pack("m0")` output has length 4·⌈n/3⌉, uses only the alphabet and "=", and "=" occurs exactly in the last (3 − n mod 3) mod 3 positions |
| `Base64.Decode` | lib/keen/client.rb:29 | the receiver's inverse of `pack("m0")`; a decoded result always has the length its encoding implies |
| `Base64.DecodeEncode` | lib/keen/client.rb:29 | decoding the encoding of any bytes gives those bytes back |
| `Base64.EncodeDecode` | lib/keen/client.rb:29 | any text the decoder accepts is exactly the encoding of what it decodes to |
| `Base64.DecodeIffEncode` | lib/keen/client.rb:29 | `Decode(s) == Some(b)` if and only if `Encode(b) == s` |
| `Base64.EncodeThreeBytes` | lib/keen/client.rb:29 | the bytes of "Man" encode as "TWFu" (example of section 4 of RFC 4648) |
| `Base64.EncodeOneByte` | lib/keen/client.rb:29 | the single byte of "M" encodes as "TQ==", two padding characters |
| `Base64.EncodeTwoBytes` | lib/keen/client.rb:29 | the bytes 251, 255 encode as "+/8=", using both characters that `tr` later replaces |
| `Base64.DecodeRejectsNonCanonical` | lib/keen/client.rb:29 | "TR==", whose pad bits are not zero, is not accepted by the canonical decoder |
| `Config.DefaultsAreTheTable` | lib/keen/client.rb:11-14 | the host, port and version that the client resolves by name are "api.keen.io", 443 and "3.0"; the `Settings` record stands for the `method_missing` lookup of lib/keen/client.rb:133-143 |
| `Config.UserAgent` | lib/keen/client.rb:21-23 | the User-Agent starts with "keen-gem, v" and the gem version, and then embeds the mode tag followed by ", " |
| `Config.UserAgentTellsModesApart` | lib/keen/client.rb:23 | the sync and async User-Agents always differ |
| `Config.ApiHeaders` | lib/keen/client.rb:21-24 | the header table for a mode holds exactly Content-Type "application/json" and that mode's User-Agent |
| `Config.MergeAuthorization` | lib/keen/client.rb:125 | the merge adds or replaces only "Authorization" and keeps every other header unchanged |
| `Config.ApiHeadersWithAuth` | lib/keen/client.rb:124-126 | publish headers are exactly Content-Type, the mode's User-Agent and the raw API key as Authorization |
| `Config.ApiPath` | lib/keen/client.rb:120-122 | the path is "/" + version + "/projects/" + project id + "/events/", followed by the collection verbatim |
| `Config.ApiPathDeterminesCollection` | lib/keen/client.rb:120-122 | for a fixed version and project, equal paths mean equal collections |
| `Config.ApiPathIsAmbiguous` | lib/keen/client.rb:121 | without escaping, two different (project id, collection) pairs can give the same path |
| `Beacon.ToUrlSafe` | lib/keen/client.rb:29 | `tr("+/", "-_")` keeps the length, maps "+" to "-" and "/" to "_", leaves every other character, and leaves no "+" or "/" |
| `Beacon.Data` | lib/keen/client.rb:28-29 | the `data` value is as long as the standard encoding of the JSON text and holds no "+", "/" or newline |
| `Beacon.FromUrlSafe` | lib/keen/client.rb:29 | the reverse character map that a receiver applies keeps the length |
| `Beacon.FromUrlSafeUndoes` | lib/keen/client.rb:29 | on text without "-" or "_", the reverse map restores the text before `tr` |
| `Beacon.DataProperties` | lib/keen/client.rb:28-29 | the `data` value has the standard encoding's length, no "+", "/" or newline, "=" padding exactly at its end, and reversing the map then decoding yields the JSON text |
| `Beacon.DataIsInjective` | lib/keen/client.rb:28-29 | different JSON texts never give the same `data` value |
| `Beacon.Url` | lib/keen/client.rb:30 | the beacon URL is "https://" + host, then the publish path, then "?api_key=" + key + "&data=", then the data, each at its own position (`Layout`) |
| `Beacon.UrlCarriesJson` | lib/keen/client.rb:28-30 | the tail of the URL after "&data=", mapped back and decoded, is the JSON text |
| `Response.Process` | lib/keen/client.rb:104-118 | a success carries the parsed body; every failure is the parse error or an HttpError kind |
| `Response.SuccessExactlyOnOk` | lib/keen/client.rb:105-108 | success with value v happens if and only if the status is 200 or 201 and the body parses to v |
| `Response.StatusSelectsError` | lib/keen/client.rb:109-117 | with a parsable body, 400, 401 and 404 give BadRequestError, AuthenticationError and NotFoundError, and every status outside {200, 201, 400, 401, 404}, 202–299 included, a plain HttpError, each carrying the body (each an if-and-only-if) |
| `Response.UnparsableBodyFailsAtEveryStatus` | lib/keen/client.rb:105 | an unparsable body fails with the parse error at every status, 200 and 201 included |
| `Response.Settle` | lib/keen/client.rb:55-58 | a transport exception settles as a connection failure of the HttpError kind carrying the message as its cause; a success means a 200 or 201 reply whose chomped body parses to the returned value |
| `Response.TransportFailureIsWrapped` | lib/keen/client.rb:55-56 | a transport exception becomes an HttpError with "Couldn't connect to Keen IO: " + its message, keeping the cause |
| `Response.TrailingLineBreakIgnored` | lib/keen/client.rb:58 | one trailing line terminator on the response body does not change the outcome |
| `KeenClient.Fetch` | lib/keen/client.rb:43-44 | `values_at` reads a missing key as nil and a present key as its value |
| `KeenClient.LegacyOptions` | lib/keen/client.rb:37-40 | in the positional form, the third hash's `:project_id`/`:api_key` override the first two arguments, which are used otherwise |
| `KeenClient.PublishRequest` | lib/keen/client.rb:50-54 | the request goes to api.keen.io:443 at "/3.0/projects/{id}/events/{collection}", with the sync headers carrying the raw key, and its body is the encoded properties |
| `KeenClient.PublishBodyRoundTrips` | lib/keen/client.rb:54 | when the JSON library round-trips the properties, the request body parses back to them |
| `KeenClient.Transport.constructor` | lib/keen/client.rb:50-51 | a new transport has received no request |
| `KeenClient.Transport.Post` | lib/keen/client.rb:50-54 | posting records the request and returns the peer's reply to it |
| `KeenClient.Client.constructor` | lib/keen/client.rb:33-45 | the hash form takes `:project_id` and `:api_key` from the hash, nil when absent |
| `KeenClient.Client.Legacy` | lib/keen/client.rb:35-44 | the positional form sets the fields from the merged options of `LegacyOptions` |
| `KeenClient.Client.SetProjectId` | lib/keen/client.rb:9 | the writer sets the project id and nothing else |
| `KeenClient.Client.SetApiKey` | lib/keen/client.rb:9 | the writer sets the API key and nothing else |
| `KeenClient.Client.CheckConfiguration` | lib/keen/client.rb:128-131 | passes if and only if both fields are non-nil (empty strings pass); a nil project id is reported first, then a nil API key |
| `KeenClient.Client.Publish` | lib/keen/client.rb:47-59 | an unconfigured client fails with the configuration error and sends nothing; otherwise exactly one request (`PublishRequest`) is sent and the reply is settled |
| `KeenClient.Client.BeaconUrl` | lib/keen/client.rb:27-31 | the URL is "https://api.keen.io" + the publish path (nil fields as "") + the query, and its data decodes back to the event's JSON text |

## Left out

- `publish_async` (lib/keen/client.rb:61-95): reactor-driven concurrency (deferrables, callbacks, the EM::Synchrony branch). Its success path calls the same `process_response` that `Response.Process` models.
- `add_event` (lib/keen/client.rb:98-100): it passes three arguments to the two-argument `publish`, so it can only raise ArgumentError. It is not modelled as an alias of `Publish`.
- `Keen::HTTP::Sync` and `Keen::HTTP::Async` are not part of this model. The transport is the `Transport` class: it records requests and answers through a fixed function. `publish` builds a fresh transport on every call; the model passes one in instead.
- MultiJson is foreign code: `Json.Codec` holds its two operations as parameters. Serialization failures of Ruby objects that are not JSON values are not modelled.
- TLS settings (`api_sync_http_options`, `api_async_http_options`, the certificate bundle path) carry no logic and are not part of the `Settings` record.
- The runtime metadata in the User-Agent (gem version, Ruby version, platform, patch level, engine) is an opaque `Config.Runtime` value.
- `Keen.logger` warnings are logging side effects.
- `status_code.to_i`: the model takes the status as an integer. Converting a status string returned by the transport is not modelled.
- A nil response body (on which `chomp` would raise) is not modelled. The transport always returns a body.
- Options hashes are keyed by symbol name only; string keys and non-string identity values are not modelled.
