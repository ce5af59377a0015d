/**
  Worked examples: two profiles compiled end to end, and the integer coercion
  on a numeral and on a word.
  */
module Scenarios {
  import opened JsonDoc
  import opened Decimal
  import opened QtString
  import opened Profiles
  import opened Stream
  import opened Compiler

  /** A decimal port string converts to its value, anything else to 0. */
  lemma PortCoercion()
    ensures ToInt("8388") == 8388
    ensures ToInt("-443") == -443
    ensures ToInt("notanumber") == 0
    ensures ToInt("") == 0
  {
    assert Unsigned("8388") == "8388";
    assert Value("8388") == 8388 by {
      assert "8388"[..3] == "838" && "838"[..2] == "83" && "83"[..1] == "8" && "8"[..0] == "";
    }
    assert Unsigned("-443") == "443";
    assert Value("443") == 443 by {
      assert "443"[..2] == "44" && "44"[..1] == "4" && "4"[..0] == "";
    }
    assert !IsDigit("notanumber"[0]);
  }

  /** Two strings agree when every character of one lower-cases to the
      character of the other at the same position. */
  lemma LowerPointwise(s: string, t: string)
    requires |s| == |t|
    requires forall i :: 0 <= i < |s| ==> LowerChar(s[i]) == t[i]
    ensures Lower(s) == t
  {
  }

  lemma LowerExamples()
    ensures Lower("TLS") == "tls"
    ensures Lower("AES-256-GCM") == "aes-256-gcm"
  {
    LowerPointwise("TLS", "tls");
    LowerPointwise("AES-256-GCM", "aes-256-gcm");
  }

  /** A vmess profile on the websocket transport. */
  const WsProfile: Profile :=
    map["protocol" := JStr("vmess"), "serverName" := JStr("A"),
        "serverAddr" := JStr("1.2.3.4"), "serverPort" := JStr("443"),
        "id" := JStr("u1"), "network" := JStr("ws"),
        "networkPath" := JStr("/ws"), "networkSecurity" := JStr("TLS")]

  predicate IsWsExample(p: Profile)
  {
    && Raw(p, "network") == Some(JStr("ws"))
    && Raw(p, "networkSecurity") == Some(JStr("TLS"))
    && Raw(p, "networkPath") == Some(JStr("/ws"))
    && Raw(p, "serverAddr") == Some(JStr("1.2.3.4"))
  }

  lemma WsProfileIsExample()
    ensures IsWsExample(WsProfile)
  {
  }

  /** The ws object of the example. */
  lemma WsExampleObject(p: Profile)
    requires IsWsExample(p)
    ensures WsSettings(p) ==
      map["path" := JStr("/ws"), "headers" := JObj(map["host" := JStr("1.2.3.4")])]
  {
    assert Entry("host", Raw(p, "serverAddr")) == map["host" := JStr("1.2.3.4")];
  }

  /** On the ws network the stream carries the ws object. */
  lemma WsStream(p: Profile, rand: nat -> nat)
    requires Str(p, "network") == "ws"
    ensures "wsSettings" in Build(p, rand)
    ensures Build(p, rand)["wsSettings"] == JObj(WsSettings(p))
  {
    assert Key(Ws) in Build(p, rand);
  }

  /** The stream settings of a vmess profile with these ws fields echo the
      network, lower-case the security and carry the ws object with the server
      address as host header. */
  lemma WsScenario(p: Profile, rand: nat -> nat)
    requires IsWsExample(p)
    ensures var stream := JObj(Build(p, rand));
      && Field(stream, "network") == JStr("ws")
      && Field(stream, "security") == JStr("tls")
      && Field(stream, "wsSettings") ==
           JObj(map["path" := JStr("/ws"), "headers" := JObj(map["host" := JStr("1.2.3.4")])])
  {
    assert LowerStr(p, "networkSecurity") == "tls" by { LowerExamples(); }
    WsStream(p, rand);
    WsExampleObject(p);
  }

  /** Through editServer, the ws example compiles to the vmess document tagged
      proxy-vmess whose stream settings are the ones above. */
  lemma WsDocument(p: Profile, rand: nat -> nat)
    requires IsWsExample(p)
    ensures var d := EditServer("vmess", p, rand);
      var stream := Field(d, "streamSettings");
      && d.JObj? && d.fields.Keys == DocumentKeys
      && Field(d, "protocol") == JStr("vmess")
      && Field(d, "tag") == JStr("proxy-vmess")
      && Field(stream, "network") == JStr("ws")
      && Field(stream, "security") == JStr("tls")
      && Field(stream, "wsSettings") ==
           JObj(map["path" := JStr("/ws"), "headers" := JObj(map["host" := JStr("1.2.3.4")])])
  {
    var stream := Build(p, rand);
    assert EditServer("vmess", p, rand) == VmessDocument(p, stream);
    WsScenario(p, rand);
    DocumentStream(p, stream, "network");
    DocumentStream(p, stream, "security");
    DocumentStream(p, stream, "wsSettings");
  }

  /** A shadowsocks profile. */
  const SsProfile: Profile :=
    map["protocol" := JStr("shadowsocks"), "serverAddr" := JStr("5.6.7.8"),
        "serverPort" := JStr("8388"), "encryption" := JStr("AES-256-GCM"),
        "password" := JStr("p")]

  predicate IsSsExample(p: Profile)
  {
    && Raw(p, "serverPort") == Some(JStr("8388"))
    && Raw(p, "encryption") == Some(JStr("AES-256-GCM"))
  }

  lemma SsProfileIsExample()
    ensures IsSsExample(SsProfile)
  {
  }

  /** The one server of the example. */
  lemma SsExampleServer(p: Profile)
    requires IsSsExample(p)
    ensures var server := ShadowsocksServer(p);
      && Field(server, "method") == JStr("aes-256-gcm")
      && Field(server, "port") == JNum(8388)
  {
    LowerExamples();
    PortCoercion();
  }

  /** A shadowsocks profile with this port and cipher compiles to a document
      whose one server has the lower-cased method and the numeric port, over
      plain tcp. */
  lemma ShadowsocksScenario(p: Profile, rand: nat -> nat)
    requires IsSsExample(p)
    ensures var d := EditServer("shadowsocks", p, rand);
      var server := Item(Field(Field(d, "settings"), "servers"), 0);
      && d.fields["streamSettings"] == JObj(map["network" := JStr("tcp")])
      && Field(server, "method") == JStr("aes-256-gcm")
      && Field(server, "port") == JNum(8388)
  {
    SsExampleServer(p);
    assert Item(Field(Field(Shadowsocks(p), "settings"), "servers"), 0) == ShadowsocksServer(p);
  }
}
