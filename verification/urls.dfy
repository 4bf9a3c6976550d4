/** The two URLs the client builds: the WebSocket endpoint from the configured socket
    URL, and the callback URL sent in the `register` frame (src/hooks/useWeniSocket.ts). */
module Urls {
  import opened Opt

  /** The scheme prefixes `^(https?:|)\/\/` strips, longest alternative first. */
  const SchemePrefixes: seq<string> := ["https://", "http://", "//"]

  /** The first scheme prefix `url` starts with, if any. */
  function SchemeOf(url: string): (r: Option<string>)
    ensures r.Some? ==> r.value in SchemePrefixes && HasPrefix(r.value, url)
    ensures r.None? ==> forall p :: p in SchemePrefixes ==> !HasPrefix(p, url)
  {
    if HasPrefix("https://", url) then Some("https://")
    else if HasPrefix("http://", url) then Some("http://")
    else if HasPrefix("//", url) then Some("//")
    else None
  }

  /** `url.replace(/^(https?:|)\/\//, '')`: drop one leading `http://`, `https://` or `//`. */
  function StripScheme(url: string): (host: string)
    ensures SchemeOf(url).Some? ==> url == SchemeOf(url).value + host
    ensures SchemeOf(url).None? ==> host == url
  {
    match SchemeOf(url)
    case Some(p) => url[|p|..]
    case None => url
  }

  /** The endpoint `wss://<host>/ws`. */
  function SocketUrl(socketUrl: string): (r: string)
    ensures HasPrefix("wss://", r) && HasSuffix("/ws", r)
    ensures |r| == |StripScheme(socketUrl)| + 9
  {
    "wss://" + StripScheme(socketUrl) + "/ws"
  }

  /** Reads the host back out of an endpoint built by SocketUrl. */
  function HostOfSocketUrl(endpoint: string): string
    requires HasPrefix("wss://", endpoint) && HasSuffix("/ws", endpoint) && |endpoint| >= 9
  {
    endpoint[6..|endpoint| - 3]
  }

  /** Stripping undoes prefixing by any one scheme, whatever follows it. */
  lemma {:induction false} StripSchemeInverse(p: string, host: string)
    requires p in SchemePrefixes
    ensures StripScheme(p + host) == host
  {
    var url := p + host;
    assert HasPrefix(p, url);
    if p == "http://" {
      assert url[4] == ':';
      assert !HasPrefix("https://", url);
    } else if p == "//" {
      assert url[0] == '/';
      assert !HasPrefix("https://", url) && !HasPrefix("http://", url);
    }
    assert SchemeOf(url) == Some(p);
  }

  /** The endpoint is always secure, ends in `/ws`, and carries the stripped host. */
  lemma {:induction false} SocketUrlShape(socketUrl: string)
    ensures var e := SocketUrl(socketUrl);
            HasPrefix("wss://", e) && HasSuffix("/ws", e) && |e| >= 9 &&
            HostOfSocketUrl(e) == StripScheme(socketUrl)
  {
    var e := SocketUrl(socketUrl);
    var h := StripScheme(socketUrl);
    assert e == "wss://" + h + "/ws";
    assert e[6..|e| - 3] == h;
  }

  /** The flows host used when none is configured. */
  const DefaultHost := "https://flows.weni.ai"

  /** `${config.host || 'https://flows.weni.ai'}/c/wwc/${channelUuid}/receive`. */
  function CallbackUrl(host: string, channelUuid: string): (r: string)
    ensures HasPrefix((if host != "" then host else DefaultHost) + "/c/wwc/", r)
    ensures HasSuffix("/receive", r)
    ensures |r| == |if host != "" then host else DefaultHost| + |channelUuid| + 15
  {
    (if host != "" then host else DefaultHost) + "/c/wwc/" + channelUuid + "/receive"
  }

  /** What the server reads back out of a callback URL, given the base it expects. */
  function ChannelOfCallback(base: string, callback: string): string
    requires HasPrefix(base + "/c/wwc/", callback) && HasSuffix("/receive", callback)
    requires |base| + 7 + 8 <= |callback|
  {
    callback[|base| + 7..|callback| - 8]
  }

  /** The callback URL starts with the configured host (or the default one) and the
      channel identifier can be recovered from it. */
  lemma {:induction false} CallbackRoundTrip(host: string, channelUuid: string)
    ensures var base := if host != "" then host else DefaultHost;
            var cb := CallbackUrl(host, channelUuid);
            HasPrefix(base + "/c/wwc/", cb) && HasSuffix("/receive", cb) &&
            |base| + 7 + 8 <= |cb| &&
            ChannelOfCallback(base, cb) == channelUuid
  {
    var base := if host != "" then host else DefaultHost;
    var cb := CallbackUrl(host, channelUuid);
    assert cb == (base + "/c/wwc/") + channelUuid + "/receive";
    assert cb[|base| + 7..|cb| - 8] == channelUuid;
  }
}
