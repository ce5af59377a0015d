/**
  The protocol compilers (getPrettyV2RayConfig, getPrettyShadowsocksConfig) and
  the protocol dispatch of editServer.
  */
module Compiler {
  import opened JsonDoc
  import opened QtString
  import opened Profiles
  import Stream

  /** The keys of every compiled document. */
  const DocumentKeys: set<string> :=
    {"autoConnect", "serverName", "protocol", "settings", "streamSettings", "tag"}

  // ------------------------------------------------------------------- vmess

  /** The single user of the single vmess server. */
  function VmessUser(p: Profile): (u: Json)
    ensures u.JObj? && u.fields.Keys == {"id", "alterId", "level", "security"}
    ensures u.fields["alterId"].JNum? && IsInt32(u.fields["alterId"].n)
    ensures u.fields["level"].JNum? && IsInt32(u.fields["level"].n)
    ensures u.fields["security"].JStr? && IsLower(u.fields["security"].str)
  {
    JObj(map[
      "id" := JStr(Str(p, "id")),
      "alterId" := JNum(Int(p, "alterId")),
      "level" := JNum(Int(p, "level")),
      "security" := JStr(LowerStr(p, "security"))])
  }

  function VmessServer(p: Profile): (s: Json)
    ensures s.JObj? && s.fields.Keys == {"address", "port", "users"}
    ensures s.fields["port"].JNum? && IsInt32(s.fields["port"].n)
    ensures s.fields["users"].JArr? && |s.fields["users"].items| == 1
  {
    JObj(map[
      "address" := JStr(Str(p, "serverAddr")),
      "port" := JNum(Int(p, "serverPort")),
      "users" := JArr([VmessUser(p)])])
  }

  /** The vmess document around a given stream settings object. */
  function VmessDocument(p: Profile, stream: map<string, Json>): (r: Json)
    ensures r.JObj? && r.fields.Keys == DocumentKeys
    ensures r.fields["protocol"] == JStr("vmess") && r.fields["tag"] == JStr("proxy-vmess")
    ensures var vnext := Field(r.fields["settings"], "vnext");
              && r.fields["settings"].JObj? && r.fields["settings"].fields.Keys == {"vnext"}
              && vnext.JArr? && |vnext.items| == 1
              && var users := Field(vnext.items[0], "users");
                 users.JArr? && |users.items| == 1
    ensures r.fields["streamSettings"] == JObj(stream)
  {
    JObj(map[
      "autoConnect" := JBool(Flag(p, "autoConnect")),
      "serverName" := JStr(Str(p, "serverName")),
      "protocol" := JStr("vmess"),
      "settings" := JObj(map["vnext" := JArr([VmessServer(p)])]),
      "streamSettings" := JObj(stream),
      "tag" := JStr("proxy-vmess")])
  }

  /** The document's stream settings are the given object, field by field. */
  lemma DocumentStream(p: Profile, stream: map<string, Json>, key: string)
    ensures Field(Field(VmessDocument(p, stream), "streamSettings"), key) == Field(JObj(stream), key)
  {
  }

  /** getPrettyV2RayConfig: a vmess document with fixed protocol and tag, one
      server holding one user, and the stream settings built from the profile. */
  function Vmess(p: Profile, rand: nat -> nat): (r: Json)
    ensures r.JObj? && r.fields.Keys == DocumentKeys
    ensures r.fields["protocol"] == JStr("vmess") && r.fields["tag"] == JStr("proxy-vmess")
    ensures r.fields["streamSettings"] == JObj(Stream.Build(p, rand))
  {
    VmessDocument(p, Stream.Build(p, rand))
  }

  // ------------------------------------------------------------- shadowsocks

  function ShadowsocksServer(p: Profile): (s: Json)
    ensures s.JObj? && s.fields.Keys == {"address", "port", "method", "password"}
    ensures s.fields["port"].JNum? && IsInt32(s.fields["port"].n)
    ensures s.fields["method"].JStr? && IsLower(s.fields["method"].str)
  {
    JObj(map[
      "address" := JStr(Str(p, "serverAddr")),
      "port" := JNum(Int(p, "serverPort")),
      "method" := JStr(LowerStr(p, "encryption")),
      "password" := JStr(Str(p, "password"))])
  }

  /** The stream settings of every shadowsocks document. */
  const PlainTcp: Json := JObj(map["network" := JStr("tcp")])

  /** getPrettyShadowsocksConfig: fixed protocol and tag, one server, and stream
      settings fixed to plain tcp. */
  function Shadowsocks(p: Profile): (r: Json)
    ensures r.JObj? && r.fields.Keys == DocumentKeys
    ensures r.fields["protocol"] == JStr("shadowsocks") && r.fields["tag"] == JStr("proxy-shadowsocks")
    ensures r.fields["autoConnect"].JBool? && r.fields["serverName"].JStr?
    ensures var servers := Field(r.fields["settings"], "servers");
              && r.fields["settings"].JObj? && r.fields["settings"].fields.Keys == {"servers"}
              && servers.JArr? && |servers.items| == 1
    ensures r.fields["streamSettings"] == PlainTcp
  {
    JObj(map[
      "autoConnect" := JBool(Flag(p, "autoConnect")),
      "serverName" := JStr(Str(p, "serverName")),
      "protocol" := JStr("shadowsocks"),
      "settings" := JObj(map["servers" := JArr([ShadowsocksServer(p)])]),
      "streamSettings" := PlainTcp,
      "tag" := JStr("proxy-shadowsocks")])
  }

  /** The profile keys a shadowsocks document is compiled from. */
  const ShadowsocksInputs: set<string> :=
    {"autoConnect", "serverName", "serverAddr", "serverPort", "encryption", "password"}

  /** A shadowsocks document depends on nothing but its six input keys: in
      particular any transport fields of the profile are ignored. */
  lemma ShadowsocksIgnoresOtherKeys(p: Profile, q: Profile)
    requires forall k :: k in ShadowsocksInputs ==> Raw(p, k) == Raw(q, k)
    ensures Shadowsocks(p) == Shadowsocks(q)
  {
    assert ShadowsocksServer(p) == ShadowsocksServer(q);
  }

  // ---------------------------------------------------------------- dispatch

  /** editServer: "vmess" and "shadowsocks" profiles are compiled, the parsed
      object of any other protocol is passed on unchanged. */
  function EditServer(protocol: string, p: Profile, rand: nat -> nat): (r: Json)
    ensures protocol == "vmess" ==> r == Vmess(p, rand)
    ensures protocol == "shadowsocks" ==> r == Shadowsocks(p)
    ensures protocol !in {"vmess", "shadowsocks"} ==> r == JObj(p)
  {
    if protocol == "vmess" then Vmess(p, rand)
    else if protocol == "shadowsocks" then Shadowsocks(p)
    else JObj(p)
  }

  /** For both compiled protocols the document has the six top-level keys, names
      its protocol and is tagged "proxy-" followed by the protocol name. */
  lemma CompiledTag(protocol: string, p: Profile, rand: nat -> nat)
    requires protocol in {"vmess", "shadowsocks"}
    ensures var r := EditServer(protocol, p, rand);
      && r.JObj? && r.fields.Keys == DocumentKeys
      && r.fields["protocol"] == JStr(protocol)
      && r.fields["tag"] == JStr("proxy-" + protocol)
  {
    if protocol == "vmess" {
      assert "proxy-" + protocol == "proxy-vmess";
    } else {
      assert "proxy-" + protocol == "proxy-shadowsocks";
    }
  }
}
