/**
  Compiled documents are normal forms. Reading a compiled document back as a
  profile and compiling that profile again reproduces the document: the
  lower-cased fields stay lower-cased, the coerced integers read back as
  themselves, and the raw echoes are echoed again.
  */
module NormalForm {
  import opened JsonDoc
  import opened QtString
  import opened Profiles
  import opened Stream
  import opened Compiler

  /** A coerced integer written back as the string a profile would carry. */
  function IntInput(j: Json): Json
  {
    JStr(ShowInt(NumOf(j)))
  }

  /** Every profile key a transport object is compiled from. */
  const TransportInputKeys: set<string> :=
    {"serverAddr", "tcpHeaderType", "kcpMtu", "kcpTti", "kcpUpLink", "kcpDownLink",
     "kcpCongestion", "kcpReadBuffer", "kcpWriteBuffer", "packetHeader", "networkPath",
     "domainSocketFilePath", "quicSecurity", "quicKey"}

  // The profile fields each transport object was compiled from. `address` is
  // the vmess server address, used where the transport object does not echo
  // `serverAddr` itself.

  function ReadTcp(tcp: Json, address: Json): Profile
  {
    map["serverAddr" := address, "tcpHeaderType" := Field(tcp, "type")]
  }

  function ReadKcp(kcp: Json, address: Json): Profile
  {
    map["serverAddr" := address,
        "kcpMtu" := IntInput(Field(kcp, "mtu")),
        "kcpTti" := IntInput(Field(kcp, "tti")),
        "kcpUpLink" := IntInput(Field(kcp, "uplinkCapacity")),
        "kcpDownLink" := IntInput(Field(kcp, "downlinkCapacity")),
        "kcpCongestion" := Field(kcp, "congestion"),
        "kcpReadBuffer" := IntInput(Field(kcp, "readBufferSize")),
        "kcpWriteBuffer" := IntInput(Field(kcp, "writeBufferSize")),
        "packetHeader" := Field(Field(kcp, "header"), "type")]
  }

  /** The ws object echoes the raw `serverAddr` as its host header, so the
      address is read from there. */
  function ReadWs(ws: Json): Profile
  {
    Entry("serverAddr", Member(Field(ws, "headers"), "host")) +
    map["networkPath" := Field(ws, "path")]
  }

  function ReadHttp(http: Json, address: Json): Profile
  {
    map["serverAddr" := address, "networkPath" := Item(Field(http, "path"), 0)]
  }

  function ReadDs(ds: Json, address: Json): Profile
  {
    map["serverAddr" := address, "domainSocketFilePath" := Field(ds, "path")]
  }

  function ReadQuic(quic: Json, address: Json): Profile
  {
    map["serverAddr" := address,
        "quicSecurity" := Field(quic, "security"),
        "quicKey" := Field(quic, "key"),
        "packetHeader" := Field(Field(quic, "header"), "type")]
  }

  /** The profile fields the object of transport `t` was compiled from. */
  function ReadTransport(t: Transport, obj: Json, address: Json): Profile
  {
    match t
    case Tcp => ReadTcp(obj, address)
    case Kcp => ReadKcp(obj, address)
    case Ws => ReadWs(obj)
    case Http => ReadHttp(obj, address)
    case DomainSocket => ReadDs(obj, address)
    case Quic => ReadQuic(obj, address)
  }

  /** The profile fields a stream settings object was compiled from. */
  function TransportInputs(stream: Json, address: Json): (q: Profile)
    ensures q.Keys <= TransportInputKeys
  {
    match Select(StrOf(Field(stream, "network")))
    case None => map["serverAddr" := address]
    case Some(t) => ReadTransport(t, Field(stream, Key(t)), address)
  }

  /** Every profile key the vmess compiler reads outside the transport object. */
  const ProtocolInputKeys: set<string> :=
    {"autoConnect", "serverName", "serverPort", "id", "alterId", "level", "security",
     "networkSecurity", "allowInsecure"}

  lemma InputKeysDisjoint()
    ensures ProtocolInputKeys !! TransportInputKeys
    ensures "network" !in ProtocolInputKeys && "network" !in TransportInputKeys
  {
  }

  /** `q` reads every field of `inputs` as `inputs` does, and lacks `serverAddr`
      when `inputs` lacks it. */
  predicate ReadsBack(q: Profile, inputs: Profile)
  {
    && (forall k :: k in inputs ==> Raw(q, k) == Some(inputs[k]))
    && ("serverAddr" !in inputs ==> "serverAddr" !in q)
  }

  /** The fields of a vmess document outside its transport object, as profile fields. */
  function ProtocolInputs(d: Json): (q: Profile)
    ensures q.Keys == ProtocolInputKeys
  {
    var server := Item(Field(Field(d, "settings"), "vnext"), 0);
    var user := Item(Field(server, "users"), 0);
    var stream := Field(d, "streamSettings");
    map["autoConnect" := Field(d, "autoConnect"),
        "serverName" := Field(d, "serverName"),
        "serverPort" := IntInput(Field(server, "port")),
        "id" := Field(user, "id"),
        "alterId" := IntInput(Field(user, "alterId")),
        "level" := IntInput(Field(user, "level")),
        "security" := Field(user, "security"),
        "networkSecurity" := Field(stream, "security"),
        "allowInsecure" := Field(Field(stream, "tlsSettings"), "allowInsecure")]
  }

  /** A vmess document read back as a profile. */
  function RecoverVmess(d: Json): Profile
  {
    var server := Item(Field(Field(d, "settings"), "vnext"), 0);
    var stream := Field(d, "streamSettings");
    ProtocolInputs(d)
    + Entry("network", Member(stream, "network"))
    + TransportInputs(stream, Field(server, "address"))
  }

  /** A shadowsocks document read back as a profile. */
  function RecoverShadowsocks(d: Json): Profile
  {
    var server := Item(Field(Field(d, "settings"), "servers"), 0);
    map["autoConnect" := Field(d, "autoConnect"),
        "serverName" := Field(d, "serverName"),
        "serverAddr" := Field(server, "address"),
        "serverPort" := IntInput(Field(server, "port")),
        "encryption" := Field(server, "method"),
        "password" := Field(server, "password")]
  }

  /** A shadowsocks document is determined by what its compiler reads. */
  lemma ShadowsocksCongruent(p: Profile, q: Profile)
    requires Flag(q, "autoConnect") == Flag(p, "autoConnect")
    requires Str(q, "serverName") == Str(p, "serverName")
    requires Str(q, "serverAddr") == Str(p, "serverAddr")
    requires Int(q, "serverPort") == Int(p, "serverPort")
    requires LowerStr(q, "encryption") == LowerStr(p, "encryption")
    requires Str(q, "password") == Str(p, "password")
    ensures Shadowsocks(q) == Shadowsocks(p)
  {
    assert ShadowsocksServer(q) == ShadowsocksServer(p);
  }

  lemma ShadowsocksFields(p: Profile)
    ensures var d := Shadowsocks(p);
      var server := Item(Field(Field(d, "settings"), "servers"), 0);
      && Field(d, "autoConnect") == JBool(Flag(p, "autoConnect"))
      && Field(d, "serverName") == JStr(Str(p, "serverName"))
      && Field(server, "address") == JStr(Str(p, "serverAddr"))
      && Field(server, "port") == JNum(Int(p, "serverPort"))
      && Field(server, "method") == JStr(LowerStr(p, "encryption"))
      && Field(server, "password") == JStr(Str(p, "password"))
  {
    var d := Shadowsocks(p);
    assert Item(Field(Field(d, "settings"), "servers"), 0) == ShadowsocksServer(p);
  }

  lemma RecoverShadowsocksReads(d: Json)
    ensures var q := RecoverShadowsocks(d);
      var server := Item(Field(Field(d, "settings"), "servers"), 0);
      && Raw(q, "autoConnect") == Some(Field(d, "autoConnect"))
      && Raw(q, "serverName") == Some(Field(d, "serverName"))
      && Raw(q, "serverAddr") == Some(Field(server, "address"))
      && Raw(q, "serverPort") == Some(IntInput(Field(server, "port")))
      && Raw(q, "encryption") == Some(Field(server, "method"))
      && Raw(q, "password") == Some(Field(server, "password"))
  {
  }

  /** The fields of a read-back shadowsocks document, in terms of the profile
      it was compiled from. */
  lemma ShadowsocksReads(p: Profile)
    ensures var q := RecoverShadowsocks(Shadowsocks(p));
      && Raw(q, "autoConnect") == Some(JBool(Flag(p, "autoConnect")))
      && Raw(q, "serverName") == Some(JStr(Str(p, "serverName")))
      && Raw(q, "serverAddr") == Some(JStr(Str(p, "serverAddr")))
      && Raw(q, "serverPort") == Some(IntInput(JNum(Int(p, "serverPort"))))
      && Raw(q, "encryption") == Some(JStr(LowerStr(p, "encryption")))
      && Raw(q, "password") == Some(JStr(Str(p, "password")))
  {
    ShadowsocksFields(p);
    RecoverShadowsocksReads(Shadowsocks(p));
  }

  /** Recompiling a shadowsocks document's own fields reproduces it. */
  lemma ShadowsocksFixpoint(p: Profile)
    ensures Shadowsocks(RecoverShadowsocks(Shadowsocks(p))) == Shadowsocks(p)
  {
    var q := RecoverShadowsocks(Shadowsocks(p));
    ShadowsocksReads(p);
    IntInputRoundTrip(p, "serverPort", q, "serverPort");
    LowerRoundTrip(p, "encryption", q, "encryption");
    ShadowsocksCongruent(p, q);
  }

  // ------------------------------------------------------------------- vmess

  lemma DocumentFields(p: Profile, stream: map<string, Json>)
    ensures var d := VmessDocument(p, stream);
      && Field(d, "autoConnect") == JBool(Flag(p, "autoConnect"))
      && Field(d, "serverName") == JStr(Str(p, "serverName"))
      && Item(Field(Field(d, "settings"), "vnext"), 0) == VmessServer(p)
      && Field(d, "streamSettings") == JObj(stream)
  {
  }

  lemma VmessFields(p: Profile, rand: nat -> nat)
    ensures var d := Vmess(p, rand);
      && Field(d, "autoConnect") == JBool(Flag(p, "autoConnect"))
      && Field(d, "serverName") == JStr(Str(p, "serverName"))
      && Item(Field(Field(d, "settings"), "vnext"), 0) == VmessServer(p)
      && Field(d, "streamSettings") == JObj(Build(p, rand))
  {
    DocumentFields(p, Build(p, rand));
  }

  lemma ServerFields(p: Profile)
    ensures var server := VmessServer(p);
      var user := Item(Field(server, "users"), 0);
      && Field(server, "address") == JStr(Str(p, "serverAddr"))
      && Field(server, "port") == JNum(Int(p, "serverPort"))
      && Field(user, "id") == JStr(Str(p, "id"))
      && Field(user, "alterId") == JNum(Int(p, "alterId"))
      && Field(user, "level") == JNum(Int(p, "level"))
      && Field(user, "security") == JStr(LowerStr(p, "security"))
  {
    assert Item(Field(VmessServer(p), "users"), 0) == VmessUser(p);
  }

  lemma StreamFields(p: Profile, rand: nat -> nat)
    ensures var stream := JObj(Build(p, rand));
      && Member(stream, "network") == Raw(p, "network")
      && StrOf(Field(stream, "network")) == Str(p, "network")
      && Field(stream, "security") == JStr(LowerStr(p, "networkSecurity"))
      && Field(Field(stream, "tlsSettings"), "allowInsecure") == JBool(Flag(p, "allowInsecure"))
  {
  }

  lemma RecoverVmessReads(d: Json)
    ensures var q := RecoverVmess(d);
      var server := Item(Field(Field(d, "settings"), "vnext"), 0);
      var stream := Field(d, "streamSettings");
      var inputs := TransportInputs(stream, Field(server, "address"));
      && (forall k :: k in ProtocolInputs(d) ==> Raw(q, k) == Some(ProtocolInputs(d)[k]))
      && Raw(q, "network") == Member(stream, "network")
      && ReadsBack(q, inputs)
  {
    InputKeysDisjoint();
  }

  /** The transport fields of the read-back profile are those read from the
      compiled transport object. */
  lemma TransportReads(p: Profile, rand: nat -> nat)
    ensures ReadsBack(RecoverVmess(Vmess(p, rand)),
                      TransportInputs(JObj(Build(p, rand)), JStr(Str(p, "serverAddr"))))
  {
    VmessFields(p, rand);
    ServerFields(p);
    RecoverVmessReads(Vmess(p, rand));
  }

  /** A coerced integer written back reads as itself. */
  lemma IntInputRoundTrip(p: Profile, key: string, q: Profile, key': string)
    requires Raw(q, key') == Some(IntInput(JNum(Int(p, key))))
    ensures Int(q, key') == Int(p, key)
  {
    ToIntShowInt(Int(p, key));
  }

  /** A lower-cased string written back lower-cases to itself. */
  lemma LowerRoundTrip(p: Profile, key: string, q: Profile, key': string)
    requires Raw(q, key') == Some(JStr(LowerStr(p, key)))
    ensures LowerStr(q, key') == LowerStr(p, key)
  {
    LowerIdempotent(Str(p, key));
  }

  lemma TcpFixpoint(p: Profile, rand: nat -> nat, q: Profile)
    requires ReadsBack(q, ReadTcp(JObj(TcpSettings(p, rand)), JStr(Str(p, "serverAddr"))))
    ensures TcpSettings(q, rand) == TcpSettings(p, rand)
    ensures Str(q, "serverAddr") == Str(p, "serverAddr")
  {
    var inputs := ReadTcp(JObj(TcpSettings(p, rand)), JStr(Str(p, "serverAddr")));
    assert "tcpHeaderType" in inputs && "serverAddr" in inputs;
    assert Field(JObj(TcpSettings(p, rand)), "type") == JStr(LowerStr(p, "tcpHeaderType"));
    LowerRoundTrip(p, "tcpHeaderType", q, "tcpHeaderType");
  }

  /** The kcp numbers read back from a kcp object. */
  lemma KcpReadsNumbers(kcp: Json, address: Json)
    ensures var inputs := ReadKcp(kcp, address);
      && Raw(inputs, "kcpMtu") == Some(IntInput(Field(kcp, "mtu")))
      && Raw(inputs, "kcpTti") == Some(IntInput(Field(kcp, "tti")))
      && Raw(inputs, "kcpUpLink") == Some(IntInput(Field(kcp, "uplinkCapacity")))
      && Raw(inputs, "kcpDownLink") == Some(IntInput(Field(kcp, "downlinkCapacity")))
  {
  }

  /** The remaining kcp fields read back from a kcp object. */
  lemma KcpReadsRest(kcp: Json, address: Json)
    ensures var inputs := ReadKcp(kcp, address);
      && Raw(inputs, "serverAddr") == Some(address)
      && Raw(inputs, "kcpCongestion") == Some(Field(kcp, "congestion"))
      && Raw(inputs, "kcpReadBuffer") == Some(IntInput(Field(kcp, "readBufferSize")))
      && Raw(inputs, "kcpWriteBuffer") == Some(IntInput(Field(kcp, "writeBufferSize")))
      && Raw(inputs, "packetHeader") == Some(Field(Field(kcp, "header"), "type"))
  {
  }

  // The kcp object's fields in terms of the profile, in three groups so that
  // each proof stays small.

  lemma KcpFields1(p: Profile)
    ensures var kcp := JObj(KcpSettings(p));
      && Field(kcp, "mtu") == JNum(Int(p, "kcpMtu"))
      && Field(kcp, "tti") == JNum(Int(p, "kcpTti"))
  {
  }

  lemma KcpFields2(p: Profile)
    ensures var kcp := JObj(KcpSettings(p));
      && Field(kcp, "uplinkCapacity") == JNum(Int(p, "kcpUpLink"))
      && Field(kcp, "downlinkCapacity") == JNum(Int(p, "kcpDownLink"))
  {
  }

  lemma KcpFields3(p: Profile)
    ensures var kcp := JObj(KcpSettings(p));
      && Field(kcp, "congestion") == JBool(Flag(p, "kcpCongestion"))
      && Field(kcp, "readBufferSize") == JNum(Int(p, "kcpReadBuffer"))
      && Field(kcp, "writeBufferSize") == JNum(Int(p, "kcpWriteBuffer"))
      && Field(Field(kcp, "header"), "type") == JStr(LowerStr(p, "packetHeader"))
  {
  }

  /** A kcp object is determined by what its builder reads. */
  lemma KcpCongruent(p: Profile, q: Profile)
    requires Int(q, "kcpMtu") == Int(p, "kcpMtu")
    requires Int(q, "kcpTti") == Int(p, "kcpTti")
    requires Int(q, "kcpUpLink") == Int(p, "kcpUpLink")
    requires Int(q, "kcpDownLink") == Int(p, "kcpDownLink")
    requires Flag(q, "kcpCongestion") == Flag(p, "kcpCongestion")
    requires Int(q, "kcpReadBuffer") == Int(p, "kcpReadBuffer")
    requires Int(q, "kcpWriteBuffer") == Int(p, "kcpWriteBuffer")
    requires LowerStr(q, "packetHeader") == LowerStr(p, "packetHeader")
    ensures KcpSettings(q) == KcpSettings(p)
  {
  }

  lemma KcpFixpoint(p: Profile, q: Profile)
    requires ReadsBack(q, ReadKcp(JObj(KcpSettings(p)), JStr(Str(p, "serverAddr"))))
    ensures KcpSettings(q) == KcpSettings(p)
    ensures Str(q, "serverAddr") == Str(p, "serverAddr")
  {
    var kcp := JObj(KcpSettings(p));
    var inputs := ReadKcp(kcp, JStr(Str(p, "serverAddr")));
    KcpReadsNumbers(kcp, JStr(Str(p, "serverAddr")));
    KcpReadsRest(kcp, JStr(Str(p, "serverAddr")));
    KcpFields1(p);
    KcpFields2(p);
    KcpFields3(p);
    IntInputRoundTrip(p, "kcpMtu", q, "kcpMtu");
    IntInputRoundTrip(p, "kcpTti", q, "kcpTti");
    IntInputRoundTrip(p, "kcpUpLink", q, "kcpUpLink");
    IntInputRoundTrip(p, "kcpDownLink", q, "kcpDownLink");
    IntInputRoundTrip(p, "kcpReadBuffer", q, "kcpReadBuffer");
    IntInputRoundTrip(p, "kcpWriteBuffer", q, "kcpWriteBuffer");
    LowerRoundTrip(p, "packetHeader", q, "packetHeader");
    KcpCongruent(p, q);
  }

  lemma WsFixpoint(p: Profile, q: Profile)
    requires ReadsBack(q, ReadWs(JObj(WsSettings(p))))
    ensures WsSettings(q) == WsSettings(p)
    ensures Str(q, "serverAddr") == Str(p, "serverAddr")
  {
    var ws := JObj(WsSettings(p));
    assert Member(Field(ws, "headers"), "host") == Raw(p, "serverAddr");
    assert Field(ws, "path") == JStr(Str(p, "networkPath"));
    assert Raw(q, "serverAddr") == Raw(p, "serverAddr");
    assert Raw(q, "networkPath") == Some(JStr(Str(p, "networkPath")));
  }

  lemma HttpFixpoint(p: Profile, q: Profile)
    requires ReadsBack(q, ReadHttp(JObj(HttpSettings(p)), JStr(Str(p, "serverAddr"))))
    ensures HttpSettings(q) == HttpSettings(p)
    ensures Str(q, "serverAddr") == Str(p, "serverAddr")
  {
    var inputs := ReadHttp(JObj(HttpSettings(p)), JStr(Str(p, "serverAddr")));
    assert "serverAddr" in inputs && "networkPath" in inputs;
    assert Raw(q, "networkPath") == Some(JStr(Str(p, "networkPath")));
  }

  lemma DsFixpoint(p: Profile, q: Profile)
    requires ReadsBack(q, ReadDs(JObj(DsSettings(p)), JStr(Str(p, "serverAddr"))))
    ensures DsSettings(q) == DsSettings(p)
    ensures Str(q, "serverAddr") == Str(p, "serverAddr")
  {
    var inputs := ReadDs(JObj(DsSettings(p)), JStr(Str(p, "serverAddr")));
    assert "serverAddr" in inputs && "domainSocketFilePath" in inputs;
  }

  lemma QuicReads(quic: Json, address: Json)
    ensures var inputs := ReadQuic(quic, address);
      && Raw(inputs, "serverAddr") == Some(address)
      && Raw(inputs, "quicSecurity") == Some(Field(quic, "security"))
      && Raw(inputs, "quicKey") == Some(Field(quic, "key"))
      && Raw(inputs, "packetHeader") == Some(Field(Field(quic, "header"), "type"))
  {
  }

  lemma QuicFixpoint(p: Profile, q: Profile)
    requires ReadsBack(q, ReadQuic(JObj(QuicSettings(p)), JStr(Str(p, "serverAddr"))))
    ensures QuicSettings(q) == QuicSettings(p)
    ensures Str(q, "serverAddr") == Str(p, "serverAddr")
  {
    var quic := JObj(QuicSettings(p));
    QuicReads(quic, JStr(Str(p, "serverAddr")));
    assert Field(quic, "security") == JStr(LowerStr(p, "quicSecurity"));
    assert Field(quic, "key") == JStr(Str(p, "quicKey"));
    assert Field(Field(quic, "header"), "type") == JStr(LowerStr(p, "packetHeader"));
    LowerRoundTrip(p, "quicSecurity", q, "quicSecurity");
    LowerRoundTrip(p, "packetHeader", q, "packetHeader");
  }

  /** The stream settings are determined by what the builder reads. */
  lemma BuildCongruent(p: Profile, q: Profile, rand: nat -> nat)
    requires Raw(q, "network") == Raw(p, "network")
    requires LowerStr(q, "networkSecurity") == LowerStr(p, "networkSecurity")
    requires Flag(q, "allowInsecure") == Flag(p, "allowInsecure")
    requires var t := Select(Str(p, "network"));
      t.Some? ==> Settings(t.value, q, rand) == Settings(t.value, p, rand)
    ensures Build(q, rand) == Build(p, rand)
  {
    assert Shared(q) == Shared(p);
    assert Str(q, "network") == Str(p, "network");
  }

  /** A vmess document is determined by what its compiler reads. */
  lemma VmessCongruent(p: Profile, q: Profile, rand: nat -> nat)
    requires Flag(q, "autoConnect") == Flag(p, "autoConnect")
    requires Str(q, "serverName") == Str(p, "serverName")
    requires Str(q, "serverAddr") == Str(p, "serverAddr")
    requires Int(q, "serverPort") == Int(p, "serverPort")
    requires Str(q, "id") == Str(p, "id")
    requires Int(q, "alterId") == Int(p, "alterId")
    requires Int(q, "level") == Int(p, "level")
    requires LowerStr(q, "security") == LowerStr(p, "security")
    requires Build(q, rand) == Build(p, rand)
    ensures Vmess(q, rand) == Vmess(p, rand)
  {
    assert VmessUser(q) == VmessUser(p);
    assert VmessServer(q) == VmessServer(p);
  }

  /** A transport object read back and rebuilt is the same object. */
  lemma SettingsFixpoint(t: Transport, p: Profile, rand: nat -> nat, q: Profile)
    requires ReadsBack(q, ReadTransport(t, JObj(Settings(t, p, rand)), JStr(Str(p, "serverAddr"))))
    ensures Settings(t, q, rand) == Settings(t, p, rand)
    ensures Str(q, "serverAddr") == Str(p, "serverAddr")
  {
    match t
    case Tcp => TcpFixpoint(p, rand, q);
    case Kcp => KcpFixpoint(p, q);
    case Ws => WsFixpoint(p, q);
    case Http => HttpFixpoint(p, q);
    case DomainSocket => DsFixpoint(p, q);
    case Quic => QuicFixpoint(p, q);
  }

  /** The read-back profile agrees with the original on every transport read. */
  lemma TransportFixpoint(p: Profile, rand: nat -> nat, q: Profile)
    requires ReadsBack(q, TransportInputs(JObj(Build(p, rand)), JStr(Str(p, "serverAddr"))))
    ensures Str(q, "serverAddr") == Str(p, "serverAddr")
    ensures var t := Select(Str(p, "network"));
      t.Some? ==> Settings(t.value, q, rand) == Settings(t.value, p, rand)
  {
    var stream := JObj(Build(p, rand));
    StreamFields(p, rand);
    match Select(Str(p, "network"))
    case None =>
      assert Raw(q, "serverAddr") == Some(JStr(Str(p, "serverAddr")));
    case Some(t) =>
      assert Field(stream, Key(t)) == JObj(Settings(t, p, rand));
      SettingsFixpoint(t, p, rand, q);
  }

  lemma ProtocolInputsDocument(d: Json)
    ensures var inputs := ProtocolInputs(d);
      var server := Item(Field(Field(d, "settings"), "vnext"), 0);
      var user := Item(Field(server, "users"), 0);
      && Raw(inputs, "autoConnect") == Some(Field(d, "autoConnect"))
      && Raw(inputs, "serverName") == Some(Field(d, "serverName"))
      && Raw(inputs, "serverPort") == Some(IntInput(Field(server, "port")))
      && Raw(inputs, "id") == Some(Field(user, "id"))
      && Raw(inputs, "alterId") == Some(IntInput(Field(user, "alterId")))
  {
  }

  lemma ProtocolInputsStream(d: Json)
    ensures var inputs := ProtocolInputs(d);
      var server := Item(Field(Field(d, "settings"), "vnext"), 0);
      var user := Item(Field(server, "users"), 0);
      var stream := Field(d, "streamSettings");
      && Raw(inputs, "level") == Some(IntInput(Field(user, "level")))
      && Raw(inputs, "security") == Some(Field(user, "security"))
      && Raw(inputs, "networkSecurity") == Some(Field(stream, "security"))
      && Raw(inputs, "allowInsecure") == Some(Field(Field(stream, "tlsSettings"), "allowInsecure"))
  {
  }

  /** The protocol fields of a read-back vmess document, in terms of the profile
      it was compiled from. */
  lemma ProtocolReads(p: Profile, rand: nat -> nat)
    ensures var q := RecoverVmess(Vmess(p, rand));
      && Raw(q, "autoConnect") == Some(JBool(Flag(p, "autoConnect")))
      && Raw(q, "serverName") == Some(JStr(Str(p, "serverName")))
      && Raw(q, "serverPort") == Some(IntInput(JNum(Int(p, "serverPort"))))
      && Raw(q, "id") == Some(JStr(Str(p, "id")))
      && Raw(q, "alterId") == Some(IntInput(JNum(Int(p, "alterId"))))
      && Raw(q, "level") == Some(IntInput(JNum(Int(p, "level"))))
      && Raw(q, "security") == Some(JStr(LowerStr(p, "security")))
      && Raw(q, "networkSecurity") == Some(JStr(LowerStr(p, "networkSecurity")))
      && Raw(q, "allowInsecure") == Some(JBool(Flag(p, "allowInsecure")))
      && Raw(q, "network") == Raw(p, "network")
  {
    var d := Vmess(p, rand);
    VmessFields(p, rand);
    ServerFields(p);
    StreamFields(p, rand);
    ProtocolInputsDocument(d);
    ProtocolInputsStream(d);
    RecoverVmessReads(d);
  }

  /** The read-back profile agrees with the original on every read outside
      the transport object. */
  lemma ProtocolFixpoint(p: Profile, q: Profile)
    requires Raw(q, "autoConnect") == Some(JBool(Flag(p, "autoConnect")))
    requires Raw(q, "serverName") == Some(JStr(Str(p, "serverName")))
    requires Raw(q, "serverPort") == Some(IntInput(JNum(Int(p, "serverPort"))))
    requires Raw(q, "id") == Some(JStr(Str(p, "id")))
    requires Raw(q, "alterId") == Some(IntInput(JNum(Int(p, "alterId"))))
    requires Raw(q, "level") == Some(IntInput(JNum(Int(p, "level"))))
    requires Raw(q, "security") == Some(JStr(LowerStr(p, "security")))
    requires Raw(q, "networkSecurity") == Some(JStr(LowerStr(p, "networkSecurity")))
    requires Raw(q, "allowInsecure") == Some(JBool(Flag(p, "allowInsecure")))
    ensures Flag(q, "autoConnect") == Flag(p, "autoConnect")
    ensures Str(q, "serverName") == Str(p, "serverName")
    ensures Int(q, "serverPort") == Int(p, "serverPort")
    ensures Str(q, "id") == Str(p, "id")
    ensures Int(q, "alterId") == Int(p, "alterId")
    ensures Int(q, "level") == Int(p, "level")
    ensures LowerStr(q, "security") == LowerStr(p, "security")
    ensures LowerStr(q, "networkSecurity") == LowerStr(p, "networkSecurity")
    ensures Flag(q, "allowInsecure") == Flag(p, "allowInsecure")
  {
    IntInputRoundTrip(p, "serverPort", q, "serverPort");
    IntInputRoundTrip(p, "alterId", q, "alterId");
    IntInputRoundTrip(p, "level", q, "level");
    LowerRoundTrip(p, "security", q, "security");
    LowerRoundTrip(p, "networkSecurity", q, "networkSecurity");
  }

  /** Recompiling a vmess document's own fields, with the same random draws,
      reproduces it: lower-cased fields stay as they are, coerced integers read
      back as themselves and the raw `network` and host values are echoed again. */
  lemma VmessFixpoint(p: Profile, rand: nat -> nat)
    ensures Vmess(RecoverVmess(Vmess(p, rand)), rand) == Vmess(p, rand)
  {
    var q := RecoverVmess(Vmess(p, rand));
    ProtocolReads(p, rand);
    ProtocolFixpoint(p, q);
    TransportReads(p, rand);
    TransportFixpoint(p, rand, q);
    BuildCongruent(p, q, rand);
    VmessCongruent(p, q, rand);
  }
}
