/** `setupConnectionParameters(h, p, e, t, s)`: everything the client
    derives from the five connection arguments, and the arguments that the
    reconnection timer passes back into `connect`. */
module Connection {

  /** The arguments of `connect(h, p, e, t, s)`: host, port, encryption
      flag, access token and secure-transport flag. */
  datatype Params = Params(host: string, port: nat, encrypt: bool, token: string, secure: bool)

  /** The member variables set from them (the request paths of the one-shot
      wrappers are not modelled apart from the two listener endpoints). */
  datatype Settings = Settings(
    params: Params,
    encryption: nat,            // mEncryption, the number 1 or 0
    protocol: string,           // mProtocol
    wsProtocol: string,         // mWebsocketProtocol
    wsPath: string,             // mWebsocketPath
    servicePath: string,        // mServicePath
    registerRequest: string,    // mRegisterListenerRequest
    unregisterRequest: string)  // mUnregisterListenerRequest

  function DigitChar(d: nat): (c: char)
    requires d < 10
    ensures '0' <= c <= '9'
  {
    ('0' as int + d) as char
  }

  /** The number a string of decimal digits denotes. */
  function DecimalValue(s: string): nat
    requires forall i :: 0 <= i < |s| ==> '0' <= s[i] <= '9'
    decreases |s|
  {
    if s == [] then 0
    else DecimalValue(s[..|s| - 1]) * 10 + (s[|s| - 1] as int - '0' as int)
  }

  /** The decimal text of a port number, as a template literal renders it:
      digits without a leading zero. */
  function PortText(n: nat): (s: string)
    ensures |s| > 0
    ensures forall i :: 0 <= i < |s| ==> '0' <= s[i] <= '9'
    ensures s[0] == '0' ==> s == "0"
    decreases n
  {
    if n < 10 then [DigitChar(n)] else PortText(n / 10) + [DigitChar(n % 10)]
  }

  /** Reading the rendered port back gives the port. */
  lemma {:induction false} PortTextValue(n: nat)
    ensures DecimalValue(PortText(n)) == n
    decreases n
  {
    var s := PortText(n);
    if n >= 10 {
      PortTextValue(n / 10);
      assert s[..|s| - 1] == PortText(n / 10);
    }
  }

  /** `h:p`, shared by the websocket path and the service path. */
  function Authority(p: Params): string {
    p.host + ":" + PortText(p.port)
  }

  function Setup(p: Params): (st: Settings)
    ensures st.params == p
    ensures st.encryption == (if p.encrypt then 1 else 0)
    ensures st.protocol == (if p.secure then "https" else "http")
    ensures st.wsProtocol == (if p.secure then "wss" else "ws")
    ensures st.wsPath == st.wsProtocol + "://" + Authority(p)
    ensures st.servicePath == st.protocol + "://" + Authority(p) + "/"
    ensures st.registerRequest == st.servicePath + "db/register_listener?id="
    ensures st.unregisterRequest == st.servicePath + "db/unregister_listener?id="
  {
    var protocol := if p.secure then "https" else "http";
    var wsProtocol := if p.secure then "wss" else "ws";
    var servicePath := protocol + "://" + Authority(p) + "/";
    Settings(p, if p.encrypt then 1 else 0, protocol, wsProtocol,
             wsProtocol + "://" + Authority(p), servicePath,
             servicePath + "db/register_listener?id=",
             servicePath + "db/unregister_listener?id=")
  }

  /** The address `createWebsocket` opens: the websocket path and the token. */
  function SocketUrl(st: Settings): (url: string)
    ensures |url| == |st.wsPath| + 7 + |st.params.token|
    ensures url[..|st.wsPath|] == st.wsPath && url[|url| - |st.params.token|..] == st.params.token
    ensures url[|st.wsPath|..|st.wsPath| + 7] == "?token="
  {
    var url := st.wsPath + "?token=" + st.params.token;
    assert url == st.wsPath + ("?token=" + st.params.token);
    url
  }

  /** The request `registerListener` sends for `uuid`. */
  function RegisterUrl(st: Settings, uuid: string): (url: string)
    ensures |url| == |st.registerRequest| + |uuid|
    ensures url[..|st.registerRequest|] == st.registerRequest && url[|st.registerRequest|..] == uuid
  {
    st.registerRequest + uuid
  }

  /** The request `unregisterListener` sends for `uuid`. */
  function UnregisterUrl(st: Settings, uuid: string): (url: string)
    ensures |url| == |st.unregisterRequest| + |uuid|
    ensures url[..|st.unregisterRequest|] == st.unregisterRequest && url[|st.unregisterRequest|..] == uuid
  {
    st.unregisterRequest + uuid
  }

  /** Only the secure flag chooses the schemes, and the secure schemes go
      together: https for requests exactly when wss for the websocket. */
  lemma SchemesFollowSecureFlag(p: Params, q: Params)
    requires p.secure == q.secure
    ensures Setup(p).protocol == Setup(q).protocol && Setup(p).wsProtocol == Setup(q).wsProtocol
    ensures Setup(p).protocol == "https" <==> Setup(p).wsProtocol == "wss"
  {
  }

  /** The websocket and the requests address the same `h:p`: the service
      path is the request scheme, the websocket path without its scheme, and
      a slash. */
  lemma SameAuthority(p: Params)
    ensures var st := Setup(p);
      |st.wsProtocol| <= |st.wsPath| && st.wsPath[..|st.wsProtocol|] == st.wsProtocol &&
      st.servicePath == st.protocol + st.wsPath[|st.wsProtocol|..] + "/"
  {
    var st := Setup(p);
    assert st.wsPath == st.wsProtocol + ("://" + Authority(p));
    assert st.wsPath[|st.wsProtocol|..] == "://" + Authority(p);
  }

  /** The listener requests of an identifier lie below the service path and
      end in `id=` and the identifier itself. */
  lemma ListenerUrls(p: Params, uuid: string)
    ensures var st := Setup(p);
      var reg := RegisterUrl(st, uuid);
      var unreg := UnregisterUrl(st, uuid);
      reg == st.servicePath + "db/register_listener?id=" + uuid &&
      unreg == st.servicePath + "db/unregister_listener?id=" + uuid &&
      reg[..|st.servicePath|] == st.servicePath &&
      reg[|reg| - |uuid|..] == uuid && reg[|reg| - |uuid| - 3..|reg| - |uuid|] == "id=" &&
      unreg[|unreg| - |uuid|..] == uuid && reg != unreg
  {
    var st := Setup(p);
    var reg := RegisterUrl(st, uuid);
    var unreg := UnregisterUrl(st, uuid);
    var n := |st.servicePath|;
    assert reg == st.servicePath + ("db/register_listener?id=" + uuid);
    assert reg[..n] == st.servicePath;
    assert unreg == st.servicePath + ("db/unregister_listener?id=" + uuid);
    assert reg[n + 3] == 'r' && unreg[n + 3] == 'u';
  }

  /** The arguments of the reconnection: `this.connect(mHost, mPort,
      mEncryption === '1', mProtocol === 'https')`. `mEncryption` is the
      number 1 or 0, never the string '1', so encryption is always off; the
      fourth argument is a boolean landing in the token position; the secure
      flag takes its default, false. */
  function ReconnectParams(st: Settings): (q: Params)
    ensures q.host == st.params.host && q.port == st.params.port
    ensures !q.encrypt && !q.secure
    ensures q.token == (if st.protocol == "https" then "true" else "false")
  {
    Params(st.params.host, st.params.port, false, if st.protocol == "https" then "true" else "false", false)
  }

  /** The reconnection reaches the same `h:p`, always over plain ws and with
      the token replaced: a secure connection comes back insecure, and the
      reconnected socket keeps the original token only when that token is
      the word the secure flag turned into. */
  lemma ReconnectChangesSocketUrl(p: Params)
    ensures var st := Setup(p);
      var again := Setup(ReconnectParams(st));
      Authority(again.params) == Authority(p) &&
      again.wsProtocol == "ws" &&
      SocketUrl(again) == "ws" + "://" + Authority(p) + "?token=" + (if p.secure then "true" else "false") &&
      (p.secure ==> SocketUrl(again) != SocketUrl(st)) &&
      (again.params.token == p.token ==> p.token == (if p.secure then "true" else "false"))
  {
    var st := Setup(p);
    var again := Setup(ReconnectParams(st));
    assert Authority(again.params) == Authority(p);
    if p.secure {
      assert st.wsPath[2] == 's' && SocketUrl(st)[2] == 's';
      assert again.wsPath[2] == ':' && SocketUrl(again)[2] == ':';
    }
  }
}
