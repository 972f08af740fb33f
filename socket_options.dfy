/**
 * The two expression-level helpers of the client event hub
 * (frontend/services/websocket.ts): how the service's options are turned into
 * the socket.io client configuration, and how the drink-preparation URL is
 * derived from the socket URL.
 */
module SocketOptions {
  import opened Optional
  import opened Text

  /** The service's options minus `url`; every field may be left out. */
  datatype ClientOptions = ClientOptions(
    reconnectionAttempts: Option<int>,
    reconnectionDelay: Option<int>,
    autoConnect: Option<bool>,
    query: Option<map<string, string>>,
    extraHeaders: Option<map<string, string>>)

  datatype ServiceOptions = ServiceOptions(url: string, client: ClientOptions)

  /** What the socket.io client is opened with. */
  datatype ClientConfig = ClientConfig(
    reconnectionAttempts: int,
    reconnectionDelay: int,
    autoConnect: bool,
    extraHeaders: Option<map<string, string>>,
    query: Option<map<string, string>>)

  const DefaultReconnectionAttempts := 5
  const DefaultReconnectionDelay := 3000

  /** `x || fallback`: the number itself when truthy, else the fallback. */
  function OrElse(x: Option<int>, fallback: int): (r: int)
    ensures Truthy(x) ==> r == x.value
    ensures !Truthy(x) ==> r == fallback
  {
    if Truthy(x) then x.value else fallback
  }

  /** The configuration `connect()` passes to `io(...)`. */
  function ResolveOptions(o: ClientOptions): (r: ClientConfig)
    ensures r.reconnectionAttempts != 0 && r.reconnectionDelay != 0
    ensures Truthy(o.reconnectionAttempts) ==> r.reconnectionAttempts == o.reconnectionAttempts.value
    ensures !Truthy(o.reconnectionAttempts) ==> r.reconnectionAttempts == DefaultReconnectionAttempts
    ensures Truthy(o.reconnectionDelay) ==> r.reconnectionDelay == o.reconnectionDelay.value
    ensures !Truthy(o.reconnectionDelay) ==> r.reconnectionDelay == DefaultReconnectionDelay
    ensures r.autoConnect <==> o.autoConnect != Some(false)
    ensures r.extraHeaders == o.extraHeaders && r.query == o.query
  {
    ClientConfig(
      OrElse(o.reconnectionAttempts, DefaultReconnectionAttempts),
      OrElse(o.reconnectionDelay, DefaultReconnectionDelay),
      o.autoConnect != Some(false),
      o.extraHeaders,
      o.query)
  }

  /** With nothing configured the client gets 5 attempts, 3000 ms between them, and connects at once. */
  lemma EmptyOptionsDefaults()
    ensures ResolveOptions(ClientOptions(None, None, None, None, None))
            == ClientConfig(5, 3000, true, None, None)
  {
  }

  /** An explicit zero counts as missing (it is falsy), so it becomes the default too. */
  lemma ZeroMeansDefault(o: ClientOptions)
    requires o.reconnectionAttempts == Some(0) && o.reconnectionDelay == Some(0)
    ensures ResolveOptions(o).reconnectionAttempts == 5 && ResolveOptions(o).reconnectionDelay == 3000
  {
  }

  /**
   * `url.replace(/^(ws|wss):\/\//, 'http://')`: a leading `ws://` or `wss://` becomes
   * `http://` (case-sensitive); any other URL is returned as it is.
   */
  function HttpBase(url: string): (r: string)
    ensures StartsWith(url, "ws://") || StartsWith(url, "wss://") ==> StartsWith(r, "http://")
    ensures !StartsWith(url, "ws://") && !StartsWith(url, "wss://") ==> r == url
  {
    if StartsWith(url, "ws://") then "http://" + url[5..]
    else if StartsWith(url, "wss://") then "http://" + url[6..]
    else url
  }

  /** A WebSocket URL keeps its host and path: only the scheme is replaced. */
  lemma HttpBaseKeepsRest(rest: string)
    ensures HttpBase("ws://" + rest) == "http://" + rest
    ensures HttpBase("wss://" + rest) == "http://" + rest
  {
    assert ("ws://" + rest)[..5] == "ws://";
    assert ("ws://" + rest)[5..] == rest;
    assert ("wss://" + rest)[..5] == "wss:/";
    assert ("wss://" + rest)[..6] == "wss://";
    assert ("wss://" + rest)[6..] == rest;
  }

  const PrepCocktailPath := "/prepCocktail/"

  /** The URL `prepareDrink(drinkId)` posts to. */
  function PrepCocktailUrl(url: string, drinkId: int): (r: string)
    ensures |r| == |HttpBase(url)| + |PrepCocktailPath| + |IntToDecimal(drinkId)|
    ensures r[..|HttpBase(url)|] == HttpBase(url)
  {
    HttpBase(url) + PrepCocktailPath + IntToDecimal(drinkId)
  }

  /** The drink id can be read back from the end of the URL, so distinct drinks get distinct URLs. */
  lemma PrepCocktailUrlCarriesId(url: string, drinkId: nat)
    ensures var r := PrepCocktailUrl(url, drinkId);
            var start := |HttpBase(url)| + |PrepCocktailPath|;
            r[|HttpBase(url)|..start] == PrepCocktailPath
            && AllDigits(r[start..]) && ParseDecimal(r[start..]) == drinkId
  {
    var r := PrepCocktailUrl(url, drinkId);
    var start := |HttpBase(url)| + |PrepCocktailPath|;
    assert r[start..] == NatToDecimal(drinkId);
    ParseNatToDecimal(drinkId);
  }
}
