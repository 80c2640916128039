/**
  The API endpoints (services/config.ts): the base URL derived from the
  Expo host, the environment or a fixed emulator address, the WebSocket URL
  derived from it, and the request timeout.
*/
module Config {
  import opened Wrappers
  import opened Entities
  import Strings

  const ApiPort := ":3000"
  const EmulatorBaseUrl := "http://10.0.2.2:3000"
  const ApiTimeoutMs: nat := 10000

  datatype ApiConfig = ApiConfig(baseUrl: string, timeoutMs: nat, websocketUrl: string)

  /** The text before the first ":" of the Expo host URI. */
  function HostOf(hostUri: string): (h: string)
    ensures ':' !in h && h <= hostUri
    ensures ':' in hostUri ==> |h| < |hostUri| && hostUri[|h|] == ':'
    ensures ':' !in hostUri ==> h == hostUri
  {
    Strings.Split(hostUri, ':')[0]
  }

  /** `getBaseURL()`, given `Constants.expoConfig?.hostUri` and
      `EXPO_PUBLIC_API_BASE_URL`. */
  function BaseUrl(hostUri: Option<string>, envBaseUrl: Option<string>): (r: string)
    ensures Truthy(hostUri) ==> r == "http://" + HostOf(hostUri.value) + ApiPort
    ensures !Truthy(hostUri) && Truthy(envBaseUrl) ==> r == envBaseUrl.value
    ensures !Truthy(hostUri) && !Truthy(envBaseUrl) ==> r == EmulatorBaseUrl
  {
    if Truthy(hostUri) then
      var host := HostOf(hostUri.value);
      "http://" + host + ApiPort
    else if Truthy(envBaseUrl) then envBaseUrl.value
    else EmulatorBaseUrl
  }

  /** `API_BASE_URL.replace("http", "ws")`. */
  function WebSocketUrl(baseUrl: string): (r: string)
    ensures Strings.StartsWith(baseUrl, "http") ==> r == "ws" + baseUrl[4..]
    ensures Strings.IndexOf(baseUrl, "http").None? ==> r == baseUrl
  {
    if Strings.StartsWith(baseUrl, "http") then
      Strings.ReplacePrefix("http", baseUrl[4..], "ws");
      assert baseUrl == "http" + baseUrl[4..];
      Strings.ReplaceFirst(baseUrl, "http", "ws")
    else Strings.ReplaceFirst(baseUrl, "http", "ws")
  }

  /** `http://` becomes `ws://` and `https://` becomes `wss://`; the rest of
      the URL is kept. */
  lemma WebSocketScheme(rest: string)
    ensures WebSocketUrl("http://" + rest) == "ws://" + rest
    ensures WebSocketUrl("https://" + rest) == "wss://" + rest
  {
    Strings.ReplacePrefix("http", "://" + rest, "ws");
    assert "http://" + rest == "http" + ("://" + rest);
    Strings.ReplacePrefix("http", "s://" + rest, "ws");
    assert "https://" + rest == "http" + ("s://" + rest);
  }

  /** With an Expo host the socket goes to the same host and port. */
  lemma WebSocketForHost(hostUri: string, envBaseUrl: Option<string>)
    requires hostUri != ""
    ensures WebSocketUrl(BaseUrl(Some(hostUri), envBaseUrl)) == "ws://" + HostOf(hostUri) + ApiPort
  {
    WebSocketScheme(HostOf(hostUri) + ApiPort);
    assert "http://" + HostOf(hostUri) + ApiPort == "http://" + (HostOf(hostUri) + ApiPort);
  }

  /** `API_CONFIG`. */
  function ApiConfigFor(hostUri: Option<string>, envBaseUrl: Option<string>): (c: ApiConfig)
    ensures c.timeoutMs == ApiTimeoutMs
    ensures c.baseUrl == BaseUrl(hostUri, envBaseUrl)
    ensures c.websocketUrl == WebSocketUrl(c.baseUrl)
  {
    var base := BaseUrl(hostUri, envBaseUrl);
    ApiConfig(base, ApiTimeoutMs, WebSocketUrl(base))
  }
}
