/**
 * The beacon URL: a GET-able URL that carries an event in its query string,
 * for publishing without an HTTP client. The event's JSON text is base64
 * encoded, mapped to the URL-safe alphabet of section 5 of RFC 4648 with
 * `String#tr("+/", "-_")`, and stripped of line breaks with
 * `String#gsub("\n", "")`. The "=" padding is kept.
 */
module Beacon {
  import opened Wrappers
  import opened Text
  import Base64
  import Config

  /** `String#tr("+/", "-_")`. */
  function ToUrlSafe(s: string): (r: string)
    ensures |r| == |s|
    ensures '+' !in r && '/' !in r
    ensures forall i :: 0 <= i < |s| && s[i] == '+' ==> r[i] == '-'
    ensures forall i :: 0 <= i < |s| && s[i] == '/' ==> r[i] == '_'
    ensures forall i :: 0 <= i < |s| && s[i] != '+' && s[i] != '/' ==> r[i] == s[i]
  {
    seq(|s|, i requires 0 <= i < |s| => if s[i] == '+' then '-' else if s[i] == '/' then '_' else s[i])
  }

  /** `String#tr("-_", "+/")`, which a receiver applies before base64 decoding. */
  function FromUrlSafe(s: string): (r: string)
    ensures |r| == |s|
  {
    seq(|s|, i requires 0 <= i < |s| => if s[i] == '-' then '+' else if s[i] == '_' then '/' else s[i])
  }

  /** The URL-safe mapping is undone on any text that held no "-" or "_" to begin with. */
  lemma FromUrlSafeUndoes(s: string)
    requires '-' !in s && '_' !in s
    ensures FromUrlSafe(ToUrlSafe(s)) == s
  {
  }

  /**
   * The `data` query parameter for an event whose JSON text is `json`: as long
   * as the standard encoding, and free of "+", "/" and line breaks.
   */
  function Data(json: Bytes): (d: string)
    ensures |d| == |Base64.Encode(json)|
    ensures '+' !in d && '/' !in d && '\n' !in d
  {
    var u := ToUrlSafe(Base64.Encode(json));
    assert '\n' !in u;
    DeleteAll(u, '\n')
  }

  /**
   * The `data` parameter has the length of the standard encoding, uses no
   * "+", "/" or line break, keeps the "=" padding at its end, and undoing the
   * URL-safe mapping then base64 decoding gives back exactly the JSON text.
   */
  lemma DataProperties(json: Bytes)
    ensures var d := Data(json);
      && |d| == |Base64.Encode(json)|
      && '+' !in d && '/' !in d && '\n' !in d
      && (forall i :: 0 <= i < |d| ==> (d[i] == '=' <==> |d| - Base64.Padding(|json|) <= i))
      && Base64.Decode(FromUrlSafe(d)) == Some(json)
  {
    var e := Base64.Encode(json);
    var u := ToUrlSafe(e);
    forall i | 0 <= i < |e| ensures e[i] != '-' && e[i] != '_' && e[i] != '\n' {
      if e[i] != '=' {
        Base64.CharSextetInverse(e[i]);
      }
    }
    assert '\n' !in u by {
      forall i | 0 <= i < |u| ensures u[i] != '\n' {
      }
    }
    assert Data(json) == u;
    FromUrlSafeUndoes(e);
    Base64.DecodeEncode(json);
  }

  /** Two events with different JSON texts never share a `data` parameter. */
  lemma DataIsInjective(a: Bytes, b: Bytes)
    requires Data(a) == Data(b)
    ensures a == b
  {
    DataProperties(a);
    DataProperties(b);
  }

  lemma ConcatenationSlices(a: string, b: string, c: string, d: string)
    ensures var s := a + b + c + d;
      && s[..|a|] == a
      && s[|a|..|a| + |b|] == b
      && s[|a| + |b|..|s| - |d|] == c
      && s[|s| - |d|..] == d
  {
  }

  /**
   * `url` is "https://" and the host, then `path`, then the query up to the
   * `data` value, then `d`.
   */
  predicate Layout(url: string, host: string, path: string, apiKey: string, d: string) {
    && |url| == 8 + |host| + |path| + 15 + |apiKey| + |d|
    && url[..8 + |host|] == "https://" + host
    && url[8 + |host|..8 + |host| + |path|] == path
    && url[8 + |host| + |path|..|url| - |d|] == "?api_key=" + apiKey + "&data="
    && url[|url| - |d|..] == d
  }

  /**
   * The beacon URL: "https://" and the host, the same path as a publish
   * request (no port), the API key, and the `data` parameter at the end.
   */
  function Url(host: string, version: string, projectId: string, apiKey: string,
               collection: string, json: Bytes): (url: string)
    ensures Layout(url, host, Config.ApiPath(version, projectId, collection), apiKey, Data(json))
  {
    var origin := "https://" + host;
    var path := Config.ApiPath(version, projectId, collection);
    var query := "?api_key=" + apiKey + "&data=";
    ConcatenationSlices(origin, path, query, Data(json));
    origin + path + query + Data(json)
  }

  /** The `data` parameter at the end of a beacon URL decodes back to exactly the JSON text. */
  lemma UrlCarriesJson(host: string, version: string, projectId: string, apiKey: string,
                       collection: string, json: Bytes)
    ensures var url := Url(host, version, projectId, apiKey, collection, json);
      Base64.Decode(FromUrlSafe(url[|url| - |Data(json)|..])) == Some(json)
  {
    DataProperties(json);
  }
}
