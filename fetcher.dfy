/** The primary provider's HTTP helper: base URL, endpoint joining and the error it throws. */
module Fetcher {
  import opened Wrappers
  import opened Text

  const DefaultBaseUrl: string := "https://pro-api.coinmarketcap.com"

  /** `process.env.COINMARKETCAP_BASE_URL || default`. */
  function BaseUrl(configured: Option<string>): (url: string)
    ensures url != []
    ensures configured.Some? && configured.value != [] ==> url == configured.value
    ensures configured.None? || configured.value == [] ==> url == DefaultBaseUrl
  {
    if configured.Some? && configured.value != [] then configured.value else DefaultBaseUrl
  }

  /** Base with one trailing slash removed, "/", endpoint with one leading slash removed. */
  function RequestUrl(base: string, endpoint: string): (url: string)
    ensures var b := |base| - (if EndsWith(base, "/") then 1 else 0);
      && |url| == b + 1 + |endpoint| - (if StartsWith(endpoint, "/") then 1 else 0)
      && url[..b] == base[..b] && url[b] == '/'
      && url[b + 1..] == (if StartsWith(endpoint, "/") then endpoint[1..] else endpoint)
      // exactly one separator when neither side brings two slashes of its own
      && (!EndsWith(base, "//") ==> b == 0 || url[b - 1] != '/')
      && (!StartsWith(endpoint, "//") ==> b + 1 == |url| || url[b + 1] != '/')
  {
    var cleanEndpoint := if StartsWith(endpoint, "/") then endpoint[1..] else endpoint;
    var cleanBase := if EndsWith(base, "/") then base[..|base| - 1] else base;
    cleanBase + "/" + cleanEndpoint
  }

  /** The message of the error `fetcher` throws on a non-2xx reply:
      the provider's error message, or the status text when there is none. */
  function ErrorMessage(status: nat, providerMessage: string, statusText: string): (msg: string)
    ensures Contains(msg, "Error")
    ensures Contains(msg, Decimal(status))
  {
    var detail := if providerMessage != [] then providerMessage else statusText;
    var msg := "API Error: " + Decimal(status) + ": " + detail;
    assert msg[4..4 + |"Error"|] == "Error";
    ContainsAt(msg, "Error", 4);
    assert msg[11..11 + |Decimal(status)|] == Decimal(status);
    ContainsAt(msg, Decimal(status), 11);
    msg
  }

  /** A 403 reply always surfaces as a message that mentions 403. */
  lemma ForbiddenMentions403(providerMessage: string, statusText: string)
    ensures Contains(ErrorMessage(403, providerMessage, statusText), "403")
  {
    assert Decimal(403) == "403";
  }
}
