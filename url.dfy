/** The routes of the provider's REST and WebSocket APIs and the URL each
    one is reached at. */
module Urls {

  const ClientApiBase: string := "https://api.ring.com/clients_api"
  const DeviceApiBase: string := "https://api.ring.com/devices/v1"
  const OauthBase: string := "https://oauth.ring.com/oauth/token"
  const AppApiBase: string := "https://prd-api-us.prd.rings.solutions/api/v1"

  const HttpsScheme: string := "https://"
  const WssScheme: string := "wss://"
  const WebsocketPath: string := "/ws?authcode="
  const WebsocketQuery: string := "&ack=false&transport=websocket"

  datatype Route =
    | Oauth
    | Session
    | Devices
    | Locations
    | Ticket
    | Websocket(host: string, authCode: string)

  /** The URL of a route; the WebSocket host and auth code are spliced in as
      they are, without escaping. */
  function BaseUrl(route: Route): (url: string)
    ensures route.Websocket? ==> WssScheme <= url
    ensures !route.Websocket? ==> HttpsScheme <= url
  {
    match route
    case Oauth => OauthBase
    case Session => ClientApiBase + "/session"
    case Devices => ClientApiBase + "/ring_devices"
    case Locations => DeviceApiBase + "/locations"
    case Ticket => AppApiBase + "/clap/tickets"
    case Websocket(host, authCode) => WssScheme + host + WebsocketPath + authCode + WebsocketQuery
  }

  /** The values the unit test of the source checks. */
  lemma BaseUrlExamples()
    ensures BaseUrl(Oauth) == OauthBase
    ensures BaseUrl(Session) == "https://api.ring.com/clients_api/session"
    ensures BaseUrl(Devices) == "https://api.ring.com/clients_api/ring_devices"
    ensures BaseUrl(Locations) == "https://api.ring.com/devices/v1/locations"
    ensures BaseUrl(Ticket) == "https://prd-api-us.prd.rings.solutions/api/v1/clap/tickets"
  {
  }

  /** The WebSocket value the unit test of the source checks. */
  lemma WebsocketUrlExample()
    ensures BaseUrl(Websocket("example.com", "12345"))
         == "wss://example.com/ws?authcode=12345&ack=false&transport=websocket"
  {
    assert "wss://" + "example.com" == "wss://example.com";
    assert "wss://example.com" + "/ws?authcode=" == "wss://example.com/ws?authcode=";
    assert "wss://example.com/ws?authcode=" + "12345" == "wss://example.com/ws?authcode=12345";
    assert "wss://example.com/ws?authcode=12345" + "&ack=false&transport=websocket"
        == "wss://example.com/ws?authcode=12345&ack=false&transport=websocket";
  }

  /** Host and auth code appear verbatim at fixed offsets of the WebSocket URL. */
  lemma {:induction false} WebsocketUrlLayout(host: string, authCode: string)
    ensures var url := BaseUrl(Websocket(host, authCode));
      && |url| == |WssScheme| + |host| + |WebsocketPath| + |authCode| + |WebsocketQuery|
      && url[..|WssScheme|] == WssScheme
      && url[|WssScheme|..|WssScheme| + |host|] == host
      && url[|WssScheme| + |host|..|WssScheme| + |host| + |WebsocketPath|] == WebsocketPath
      && url[|WssScheme| + |host| + |WebsocketPath|..|url| - |WebsocketQuery|] == authCode
      && url[|url| - |WebsocketQuery|..] == WebsocketQuery
  {
    var url := BaseUrl(Websocket(host, authCode));
    var a := |WssScheme|;
    var b := a + |host|;
    var c := b + |WebsocketPath|;
    var d := c + |authCode|;
    assert url == (((WssScheme + host) + WebsocketPath) + authCode) + WebsocketQuery;
    assert url[..d] == ((WssScheme + host) + WebsocketPath) + authCode;
    assert url[..c] == (WssScheme + host) + WebsocketPath;
    assert url[..b] == WssScheme + host;
    assert url[a..b] == url[..b][a..];
    assert url[b..c] == url[..c][b..];
    assert url[c..d] == url[..d][c..];
  }

  /** A WebSocket URL is the only kind that uses the `wss` scheme, and every
      other route uses `https`. */
  lemma SchemeIdentifiesWebsocket(route: Route)
    ensures WssScheme <= BaseUrl(route) <==> route.Websocket?
    ensures HttpsScheme <= BaseUrl(route) <==> !route.Websocket?
  {
    var url := BaseUrl(route);
    if route.Websocket? {
      assert url[0] == 'w';
    } else {
      assert url[0] == 'h';
    }
  }

  /** The five REST routes reach five different URLs. */
  lemma FixedRoutesAreDistinct(r1: Route, r2: Route)
    requires !r1.Websocket? && !r2.Websocket?
    ensures BaseUrl(r1) == BaseUrl(r2) <==> r1 == r2
  {
    // The five URLs have five different lengths.
    if r1 != r2 {
      assert |BaseUrl(r1)| != |BaseUrl(r2)|;
    }
  }

  /** When the host contains no `/`, the WebSocket URL determines both host
      and auth code. */
  lemma {:induction false} WebsocketUrlInjective(h1: string, a1: string, h2: string, a2: string)
    requires '/' !in h1 && '/' !in h2
    requires BaseUrl(Websocket(h1, a1)) == BaseUrl(Websocket(h2, a2))
    ensures h1 == h2 && a1 == a2
  {
    var url := BaseUrl(Websocket(h1, a1));
    WebsocketUrlLayout(h1, a1);
    WebsocketUrlLayout(h2, a2);
    var s := |WssScheme|;
    var u1 := BaseUrl(Websocket(h2, a2));
    assert forall i :: 0 <= i < |h1| ==> url[s + i] == h1[i] != '/';
    assert forall i :: 0 <= i < |h2| ==> u1[s + i] == h2[i] != '/';
    assert url[s + |h1|] == '/' && u1[s + |h2|] == '/';
    assert |h1| == |h2|;
  }

  /** Without escaping, a host that carries a `/` makes two different
      tickets reach the same URL. */
  lemma UnescapedHostIsAmbiguous()
    ensures BaseUrl(Websocket("a", "b/ws?authcode=c")) == BaseUrl(Websocket("a/ws?authcode=b", "c"))
  {
  }
}
