/**
  getV2RayStreamSettingsConfig: the `streamSettings` object of a vmess
  configuration. Three shared fields, then at most one transport sub-object
  chosen by the profile's `network` string.
  */
module Stream {
  import opened JsonDoc
  import opened QtString
  import opened Profiles
  import opened UserAgent

  /** The six transports the source recognises. */
  datatype Transport = Tcp | Kcp | Ws | Http | DomainSocket | Quic

  /** The exact `network` string that selects a transport. */
  function Name(t: Transport): string
  {
    match t
    case Tcp => "tcp"
    case Kcp => "kcp"
    case Ws => "ws"
    case Http => "http"
    case DomainSocket => "domainsocket"
    case Quic => "quic"
  }

  /** The key under which a transport's settings are stored. */
  function Key(t: Transport): string
  {
    match t
    case Tcp => "tcpSettings"
    case Kcp => "kcpSettings"
    case Ws => "wsSettings"
    case Http => "httpSettings"
    case DomainSocket => "dsSettings"
    case Quic => "quicSettings"
  }

  /** The equality chain on `network`: case-sensitive, no default. */
  function Select(network: string): (t: Option<Transport>)
    ensures t.Some? ==> Name(t.value) == network
    ensures t.None? ==> forall u :: Name(u) != network
  {
    if network == "tcp" then Some(Tcp)
    else if network == "kcp" then Some(Kcp)
    else if network == "ws" then Some(Ws)
    else if network == "http" then Some(Http)
    else if network == "domainsocket" then Some(DomainSocket)
    else if network == "quic" then Some(Quic)
    else None
  }

  /** Different transports are selected by different strings and stored under
      different keys. */
  lemma NamesAndKeysDistinct(t: Transport, u: Transport)
    ensures Name(t) == Name(u) ==> t == u
    ensures Key(t) == Key(u) ==> t == u
  {
  }

  /** The keys every stream settings object may carry besides a transport. */
  const SharedKeys: set<string> := {"network", "security", "tlsSettings"}

  // ------------------------------------------------------ tcp camouflage

  /** The twelve fixed host names of the fake HTTP request. */
  const DecoyHosts: seq<string> :=
    [ "www.baidu.com", "www.bing.com", "www.163.com",
      "www.netease.com", "www.qq.com", "www.tencent.com",
      "www.taobao.com", "www.tmall.com",
      "www.alibaba-inc.com", "www.aliyun.com",
      "www.sensetime.com", "www.megvii.com" ]

  /** Number of user agents the fake HTTP request carries. */
  const AgentCount := 24

  function CamouflageRequest(rand: nat -> nat): Json
  {
    JObj(map[
      "version" := JStr("1.1"),
      "method" := JStr("GET"),
      "path" := Strings(["/"]),
      "headers" := JObj(map[
        "host" := Strings(DecoyHosts),
        "User-Agent" := Strings(UserAgents(AgentCount, rand)),
        "Accept-Encoding" := Strings(["gzip, deflate"]),
        "Connection" := Strings(["keep-alive"]),
        "Pragma" := JStr("no-cache")])])
  }

  const CamouflageResponse: Json :=
    JObj(map[
      "version" := JStr("1.1"),
      "status" := JStr("200"),
      "reason" := JStr("OK"),
      "headers" := JObj(map[
        "Content-Type" := Strings(["text/html;charset=utf-8"]),
        "Transfer-Encoding" := Strings(["chunked"]),
        "Connection" := Strings(["keep-alive"]),
        "Pragma" := JStr("no-cache")])])

  // ------------------------------------------------ per-transport objects

  function TcpSettings(p: Profile, rand: nat -> nat): map<string, Json>
  {
    var headerType := LowerStr(p, "tcpHeaderType");
    if headerType == "http" then
      map["type" := JStr(headerType),
          "request" := CamouflageRequest(rand),
          "response" := CamouflageResponse]
    else
      map["type" := JStr(headerType)]
  }

  function KcpSettings(p: Profile): map<string, Json>
  {
    map["mtu" := JNum(Int(p, "kcpMtu")),
        "tti" := JNum(Int(p, "kcpTti")),
        "uplinkCapacity" := JNum(Int(p, "kcpUpLink")),
        "downlinkCapacity" := JNum(Int(p, "kcpDownLink")),
        "congestion" := JBool(Flag(p, "kcpCongestion")),
        "readBufferSize" := JNum(Int(p, "kcpReadBuffer")),
        "writeBufferSize" := JNum(Int(p, "kcpWriteBuffer")),
        "header" := JObj(map["type" := JStr(LowerStr(p, "packetHeader"))])]
  }

  function WsSettings(p: Profile): map<string, Json>
  {
    map["path" := JStr(Str(p, "networkPath")),
        "headers" := JObj(Entry("host", Raw(p, "serverAddr")))]
  }

  function HttpSettings(p: Profile): map<string, Json>
  {
    map["host" := Strings([Str(p, "serverAddr")]),
        "path" := Strings([Str(p, "networkPath")])]
  }

  function DsSettings(p: Profile): map<string, Json>
  {
    map["path" := JStr(Str(p, "domainSocketFilePath"))]
  }

  function QuicSettings(p: Profile): map<string, Json>
  {
    map["security" := JStr(LowerStr(p, "quicSecurity")),
        "key" := JStr(Str(p, "quicKey")),
        "header" := JObj(map["type" := JStr(LowerStr(p, "packetHeader"))])]
  }

  /** With any header type other than "http" the tcp object holds the type
      alone; the type is always the lower-cased input. */
  lemma TcpShape(p: Profile, rand: nat -> nat)
    ensures var m := TcpSettings(p, rand);
      && "type" in m && m["type"] == JStr(LowerStr(p, "tcpHeaderType"))
      && IsLower(m["type"].str)
      && m.Keys == if LowerStr(p, "tcpHeaderType") == "http" then {"type", "request", "response"} else {"type"}
  {
  }

  /** The kcp object: six coerced 32-bit integers, the congestion flag and a
      lower-cased header type. */
  lemma KcpShape(p: Profile)
    ensures var m := KcpSettings(p);
      && m.Keys == {"mtu", "tti", "uplinkCapacity", "downlinkCapacity",
                    "congestion", "readBufferSize", "writeBufferSize", "header"}
      && m["mtu"].JNum? && IsInt32(m["mtu"].n)
      && m["tti"].JNum? && IsInt32(m["tti"].n)
      && m["uplinkCapacity"].JNum? && IsInt32(m["uplinkCapacity"].n)
      && m["downlinkCapacity"].JNum? && IsInt32(m["downlinkCapacity"].n)
      && m["readBufferSize"].JNum? && IsInt32(m["readBufferSize"].n)
      && m["writeBufferSize"].JNum? && IsInt32(m["writeBufferSize"].n)
      && m["congestion"].JBool?
      && m["header"] == JObj(map["type" := JStr(LowerStr(p, "packetHeader"))])
      && IsLower(LowerStr(p, "packetHeader"))
  {
  }

  /** The ws object's host header is the raw `serverAddr` value: present exactly
      when the profile has one. */
  lemma WsShape(p: Profile)
    ensures var m := WsSettings(p);
      && m.Keys == {"path", "headers"}
      && m["path"] == JStr(Str(p, "networkPath"))
      && m["headers"].JObj?
      && ("host" in m["headers"].fields <==> "serverAddr" in p)
      && ("serverAddr" in p ==> m["headers"].fields["host"] == p["serverAddr"])
  {
  }

  /** The http object's host and path are one-element arrays. A separate step
      keeps the proof of HttpTransport small. */
  lemma HttpShape(p: Profile)
    ensures var m := HttpSettings(p);
      && m.Keys == {"host", "path"}
      && m["host"] == JArr([JStr(Str(p, "serverAddr"))])
      && m["path"] == JArr([JStr(Str(p, "networkPath"))])
  {
  }

  /** The quic object: lower-cased security, the key as given and a
      lower-cased header type. */
  lemma QuicShape(p: Profile)
    ensures var m := QuicSettings(p);
      && m.Keys == {"security", "key", "header"}
      && m["security"] == JStr(LowerStr(p, "quicSecurity")) && IsLower(LowerStr(p, "quicSecurity"))
      && m["key"] == JStr(Str(p, "quicKey"))
      && m["header"] == JObj(map["type" := JStr(LowerStr(p, "packetHeader"))])
      && IsLower(LowerStr(p, "packetHeader"))
  {
  }

  function Settings(t: Transport, p: Profile, rand: nat -> nat): map<string, Json>
  {
    match t
    case Tcp => TcpSettings(p, rand)
    case Kcp => KcpSettings(p)
    case Ws => WsSettings(p)
    case Http => HttpSettings(p)
    case DomainSocket => DsSettings(p)
    case Quic => QuicSettings(p)
  }

  // ------------------------------------------------------- stream settings

  /** The three fields every stream settings object gets; `network` is the
      profile's raw value, so it is absent when the profile has none. */
  function Shared(p: Profile): (r: map<string, Json>)
    ensures "network" in r <==> "network" in p
    ensures "network" in p ==> r["network"] == p["network"]
    ensures "security" in r && r["security"] == JStr(LowerStr(p, "networkSecurity"))
    ensures "tlsSettings" in r && r["tlsSettings"] == JObj(map["allowInsecure" := JBool(Flag(p, "allowInsecure"))])
    ensures r.Keys <= SharedKeys
  {
    Entry("network", Raw(p, "network")) + map[
      "security" := JStr(LowerStr(p, "networkSecurity")),
      "tlsSettings" := JObj(map["allowInsecure" := JBool(Flag(p, "allowInsecure"))])]
  }

  /** The keys transport objects are stored under. */
  const TransportKeys: set<string> :=
    {"tcpSettings", "kcpSettings", "wsSettings", "httpSettings", "dsSettings", "quicSettings"}

  lemma KeysAreTransportKeys()
    ensures forall t :: Key(t) in TransportKeys
    ensures forall k :: k in TransportKeys ==> exists t :: Key(t) == k
  {
    assert Key(Tcp) == "tcpSettings" && Key(Kcp) == "kcpSettings" && Key(Ws) == "wsSettings";
    assert Key(Http) == "httpSettings" && Key(DomainSocket) == "dsSettings" && Key(Quic) == "quicSettings";
  }

  /** No transport object is stored under a shared key. */
  lemma KeysNotShared()
    ensures SharedKeys !! TransportKeys
    ensures forall t :: Key(t) !in SharedKeys
  {
    KeysAreTransportKeys();
  }

  /** A map holding one transport object holds no other. */
  lemma SingleTransport(t: Transport, v: Json)
    ensures forall u :: Key(u) in map[Key(t) := v] <==> u == t
  {
    forall u ensures Key(u) in map[Key(t) := v] <==> u == t {
      NamesAndKeysDistinct(t, u);
    }
  }

  /** The transport sub-object, if the `network` string selects one. */
  function TransportPart(p: Profile, rand: nat -> nat): (r: map<string, Json>)
    ensures forall t :: Key(t) in r <==> Str(p, "network") == Name(t)
    ensures forall t :: Key(t) in r ==> r[Key(t)] == JObj(Settings(t, p, rand))
    ensures r.Keys <= TransportKeys
  {
    KeysAreTransportKeys();
    match Select(Str(p, "network"))
    case None => map[]
    case Some(t) =>
      SingleTransport(t, JObj(Settings(t, p, rand)));
      map[Key(t) := JObj(Settings(t, p, rand))]
  }

  /** getV2RayStreamSettingsConfig: the shared fields, then the selected
      transport's sub-object, if any. */
  function Build(p: Profile, rand: nat -> nat): (r: map<string, Json>)
    ensures "network" in r <==> "network" in p
    ensures "network" in p ==> r["network"] == p["network"]
    ensures "security" in r && r["security"] == JStr(LowerStr(p, "networkSecurity"))
    ensures "tlsSettings" in r && r["tlsSettings"] == JObj(map["allowInsecure" := JBool(Flag(p, "allowInsecure"))])
    ensures forall t :: Key(t) in r <==> Str(p, "network") == Name(t)
    ensures forall t :: Key(t) in r ==> r[Key(t)] == JObj(Settings(t, p, rand))
    ensures r.Keys <= SharedKeys + TransportKeys
  {
    KeysNotShared();
    var shared := Shared(p);
    var transport := TransportPart(p, rand);
    assert "network" !in transport && "security" !in transport && "tlsSettings" !in transport;
    shared + transport
  }

  /** The object of transport `t` is stored under its key exactly when the
      `network` string is the transport's name. */
  lemma TransportStored(t: Transport, p: Profile, rand: nat -> nat)
    ensures Key(t) in Build(p, rand) <==> Str(p, "network") == Name(t)
    ensures Key(t) in Build(p, rand) ==> Build(p, rand)[Key(t)] == JObj(Settings(t, p, rand))
  {
  }

  /** On the http network the stream settings carry an http object whose host
      and path are one-element arrays holding the server address and the path;
      on any other network they carry none. */
  lemma HttpTransport(p: Profile, rand: nat -> nat)
    ensures var stream := Build(p, rand);
      && ("httpSettings" in stream <==> Str(p, "network") == "http")
      && (Str(p, "network") == "http" ==>
            var http := stream["httpSettings"];
            && http.JObj? && http.fields.Keys == {"host", "path"}
            && Field(http, "host") == JArr([JStr(Str(p, "serverAddr"))])
            && Field(http, "path") == JArr([JStr(Str(p, "networkPath"))]))
  {
    TransportStored(Http, p, rand);
    assert Key(Http) == "httpSettings" && Name(Http) == "http";
    assert Settings(Http, p, rand) == HttpSettings(p);
    HttpShape(p);
  }

  /** On the domainsocket network the stream settings carry a dsSettings object
      holding only the socket path; on any other network they carry none. */
  lemma DsTransport(p: Profile, rand: nat -> nat)
    ensures var stream := Build(p, rand);
      && ("dsSettings" in stream <==> Str(p, "network") == "domainsocket")
      && (Str(p, "network") == "domainsocket" ==>
            var ds := stream["dsSettings"];
            && ds.JObj? && ds.fields.Keys == {"path"}
            && Field(ds, "path") == JStr(Str(p, "domainSocketFilePath")))
  {
    TransportStored(DomainSocket, p, rand);
    assert Key(DomainSocket) == "dsSettings" && Name(DomainSocket) == "domainsocket";
    var ds := JObj(Settings(DomainSocket, p, rand));
    assert ds.fields == DsSettings(p);
  }

  /** At most one transport sub-object is present, and exactly one when the
      network string is one of the six names. */
  lemma OneTransport(p: Profile, rand: nat -> nat)
    ensures forall t, u :: Key(t) in Build(p, rand) && Key(u) in Build(p, rand) ==> t == u
    ensures Select(Str(p, "network")).Some? <==> exists t :: Key(t) in Build(p, rand)
  {
    var r := Build(p, rand);
    forall t, u | Key(t) in r && Key(u) in r
      ensures t == u
    {
      NamesAndKeysDistinct(t, u);
    }
    var s := Select(Str(p, "network"));
    if s.Some? {
      assert Key(s.value) in r;
    }
  }

  /** With header type "http" (in any case) the tcp object carries the fake
      exchange: the request names the twelve decoy hosts and 24 well-formed user
      agents, and the response is "200 OK". Build stores this object under
      "tcpSettings" when `network` is "tcp". */
  lemma HttpCamouflage(p: Profile, rand: nat -> nat)
    requires LowerStr(p, "tcpHeaderType") == "http"
    ensures var tcp := JObj(TcpSettings(p, rand));
      var headers := Field(Field(tcp, "request"), "headers");
      var agents := Field(headers, "User-Agent");
      && Field(tcp, "type") == JStr("http")
      && Field(headers, "host") == Strings(DecoyHosts) && |DecoyHosts| == 12
      && agents.JArr? && |agents.items| == 24
      && (forall k :: 0 <= k < 24 ==>
            agents.items[k].JStr? && Parse(agents.items[k].str).Some? &&
            InRange(Parse(agents.items[k].str).value))
      && Field(Field(tcp, "response"), "status") == JStr("200")
      && Field(Field(tcp, "response"), "reason") == JStr("OK")
  {
    var tcp := JObj(TcpSettings(p, rand));
    assert Field(tcp, "request") == CamouflageRequest(rand);
    assert Field(tcp, "response") == CamouflageResponse;
    var headers := Field(CamouflageRequest(rand), "headers");
    assert Field(headers, "host") == Strings(DecoyHosts);
    assert Field(headers, "User-Agent") == Strings(UserAgents(AgentCount, rand));
    UserAgentsWellFormed(AgentCount, rand);
  }
}
