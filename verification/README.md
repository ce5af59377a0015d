# Server-profile compiler of the proxy client

This project models how the desktop proxy client turns a server profile into a
proxy-core outbound configuration (`src/appproxy.cpp`). The profile is the JSON
object the user interface hands over.

- `getPrettyV2RayConfig` compiles a vmess profile. The result is a document with
  fixed protocol and tag, one server holding one user, and the stream settings.
- `getV2RayStreamSettingsConfig` builds those stream settings. It always sets
  `security` and `tlsSettings`, and echoes the profile's raw `network` value. The
  `network` string then selects at most one transport sub-object: `tcp`, `kcp`,
  `ws`, `http`, `domainsocket` or `quic`.
- `tcp` with header type `http` adds a fake HTTP request and response. The
  request carries twelve fixed host names and 24 random Chrome user agents, from
  `getRandomUserAgents`.
- `getPrettyShadowsocksConfig` compiles a shadowsocks profile. The stream
  settings are fixed to plain tcp.
- `editServer` dispatches on the protocol name. Any other protocol's object
  passes through unchanged.

The modules:

- `JsonDoc` (json.dfy) defines JSON values. An object is a `map<string, Json>`:
  QJsonObject keys are unique, and insertion order is not observable.
- `Profiles` (profile.dfy) reads a profile. A missing key is QJsonValue's
  undefined value (`None`). `toString()` gives `""` for anything that is not a
  string, and `toBool()` gives `false` for anything that is not a boolean.
- `QtString` (qtstring.dfy) models `QString::toLower`, `QString::toInt` and
  `QString::number`. `Decimal` (decimal.dfy) has decimal numerals and their
  values.
- `UserAgent` (useragent.dfy) generates the user agents and has a parser that
  reads them back.
- `Stream` (stream.dfy) builds the stream settings and the six transport objects.
- `Compiler` (compiler.dfy) has the two protocol compilers and the dispatch.
- `NormalForm` (normalform.dfy) reads a compiled document back as a profile. It
  proves that compiling that profile again reproduces the document, for both
  protocols and every transport, so compiling the read-back of a compiled
  document gives that document back: the read-back is a right inverse of each
  compiler on compiled documents. The round trip works because every lower-cased field is already
  lower case and every coerced integer is rendered as a numeral that parses back
  to itself.
- `Scenarios` (scenarios.dfy) compiles concrete example profiles.

The random source is a parameter. `rand(i)` is the value of the i-th
`std::rand()` call while the user agents are generated, and agent k uses calls
4k to 4k+3.

Stream settings do not always contain `network`. Line 259 stores the raw
profile value, and QJsonObject drops a key whose value is undefined, so a
profile without `network` compiles to stream settings without it. The same holds
for the ws host header (line 321) when `serverAddr` is missing. `Stream.Build`
and `Stream.WsShape` state this.

Ports are not checked against the 16-bit range: a port is whatever `toInt`
gives, any 32-bit value. A missing or unrecognised `network` selects no
transport, so no transport object is added.

## Model

| member | source | states |
|---|---|---|
| JsonDoc.Entry | src/appproxy.cpp:321 | inserting an undefined value leaves the key out: the key is present exactly when the value is defined, and then holds it |
| Profiles.ToStr | src/appproxy.cpp:233 | toString() gives the string of a JSON string, and a non-empty result only for a JSON string, so numbers, booleans and missing keys read as "" |
| Profiles.ToBool | src/appproxy.cpp:232 | toBool() is true exactly for the JSON value true, so a missing key or the string "true" reads as false |
| Profiles.NonStringReadsEmpty | src/appproxy.cpp:240 | a field that is missing or not a JSON string reads as "" and coerces to 0, so a port given as a JSON number compiles to port 0 |
| QtString.Lower | src/appproxy.cpp:246 | toLower keeps the length, maps each character through the ASCII letter map, and leaves no upper-case letter |
| QtString.LowerFixpoint | src/appproxy.cpp:260 | a string is its own lower-cased form exactly when it has no upper-case letter |
| QtString.LowerIdempotent | src/appproxy.cpp:388 | lower-casing an already lower-cased field changes nothing |
| QtString.ToInt | src/appproxy.cpp:240 | toInt always yields a 32-bit value, and yields 0 for anything that is not a signed decimal numeral |
| QtString.ToIntShowInt | src/appproxy.cpp:244-245 | every 32-bit integer written as a decimal numeral converts back to itself |
| QtString.ToIntOverflow | src/appproxy.cpp:306-312 | numerals outside the 32-bit range convert to 0, for both signs |
| Decimal.Show | src/appproxy.cpp:358-360 | QString::number of a non-negative number is a non-empty digit string that starts with 0 only for zero |
| Decimal.ValueOfShow | src/appproxy.cpp:358-360 | the value of the numeral written for n is n |
| Decimal.SpanOfNumeral | src/appproxy.cpp:355-360 | when a numeral is followed by a non-digit, the leading digit run is exactly that numeral |
| UserAgent.Draw | src/appproxy.cpp:351-354 | the four draws reduce to a platform index below 3, a major in 50..79, a build in 1000..4999 and a patch in 0..99 |
| UserAgent.UserAgents | src/appproxy.cpp:349-362 | getRandomUserAgents(n) returns n strings, or none when n is negative |
| UserAgent.Render | src/appproxy.cpp:355-360 | an agent starts with `Mozilla/5.0 (`, its platform string and the AppleWebKit/Chrome text, and ends with ` Safari/537.36`; UserAgent.ParseRender shows the numbers in between read back |
| UserAgent.UserAgentsWellFormed | src/appproxy.cpp:345-363 | the k-th agent has the fixed Mozilla/Chrome format and parses back to the k-th group of draws, which is in range |
| UserAgent.ParseRender | src/appproxy.cpp:355-360 | parsing a rendered agent recovers its platform, major, build and patch |
| Stream.Select | src/appproxy.cpp:265-341 | a transport is chosen exactly when `network` equals its name, compared case-sensitively, with no default |
| Stream.NamesAndKeysDistinct | src/appproxy.cpp:265-341 | distinct transports have distinct names and are stored under distinct keys |
| Stream.TcpShape | src/appproxy.cpp:265-301 | the tcp type is the lower-cased header type, and request and response are present exactly when that type is "http" |
| Stream.HttpCamouflage | src/appproxy.cpp:268-300 | with header type http in any case, the request lists the 12 decoy hosts and 24 well-formed in-range agents, and the response is 200 OK |
| Stream.KcpShape | src/appproxy.cpp:302-315 | the kcp object has exactly eight keys: six 32-bit coerced integers, the congestion flag and a lower-cased header type |
| Stream.WsShape | src/appproxy.cpp:316-321 | the ws path is networkPath, and the host header is the raw serverAddr value, absent exactly when serverAddr is missing |
| Stream.HttpTransport | src/appproxy.cpp:322-327 | the stream settings hold httpSettings exactly when network is "http", and then its host and path are the one-element arrays [serverAddr] and [networkPath] and nothing else |
| Stream.DsTransport | src/appproxy.cpp:328-331 | the stream settings hold dsSettings exactly when network is "domainsocket", and then it holds only the path domainSocketFilePath |
| Stream.QuicShape | src/appproxy.cpp:332-340 | the quic security and header type are lower-cased and the key is passed as given |
| Stream.Shared | src/appproxy.cpp:257-263 | network is echoed raw and only when present; security is the lower-cased networkSecurity; allowInsecure defaults to false |
| Stream.TransportPart | src/appproxy.cpp:265-341 | a transport key is present exactly when network names that transport, and it holds that transport's object |
| Stream.Build | src/appproxy.cpp:255-343 | security and tlsSettings are always present and network only when the profile has it; a transport key is added exactly when network names its transport, holding that transport's object; no other key appears |
| Stream.OneTransport | src/appproxy.cpp:265-341 | at most one transport object is present, and one is present exactly when network is one of the six names |
| Compiler.VmessUser | src/appproxy.cpp:242-247 | the user has exactly id, alterId, level and security; both numbers are 32-bit and security is lower case |
| Compiler.VmessServer | src/appproxy.cpp:238-247 | the server has exactly address, port and users, with a 32-bit port and exactly one user |
| Compiler.VmessDocument | src/appproxy.cpp:231-248 | the vmess document has the six keys, protocol vmess, tag proxy-vmess, one server with one user, and the given stream settings |
| Compiler.Vmess | src/appproxy.cpp:230-253 | getPrettyV2RayConfig has the six keys, protocol vmess and tag proxy-vmess, and its streamSettings is the built stream object |
| Compiler.ShadowsocksServer | src/appproxy.cpp:385-389 | the server has exactly address, port, method and password, with a 32-bit port and a lower-case method |
| Compiler.Shadowsocks | src/appproxy.cpp:377-392 | the shadowsocks document has protocol shadowsocks, tag proxy-shadowsocks, one server, and streamSettings exactly {network: tcp} |
| Compiler.ShadowsocksIgnoresOtherKeys | src/appproxy.cpp:377-392 | the shadowsocks document depends only on its six input keys, so transport fields in the profile are ignored |
| Compiler.EditServer | src/appproxy.cpp:403-407 | vmess goes to the vmess compiler, shadowsocks to the shadowsocks compiler, and any other protocol keeps the parsed object |
| Compiler.CompiledTag | src/appproxy.cpp:403-407 | for both compiled protocols the document names the protocol and is tagged "proxy-" followed by it |
| NormalForm.IntInputRoundTrip | src/appproxy.cpp:240 | a coerced integer written back as its numeral coerces to the same integer |
| NormalForm.LowerRoundTrip | src/appproxy.cpp:246 | a lower-cased field written back lower-cases to the same string |
| NormalForm.ShadowsocksCongruent | src/appproxy.cpp:379-391 | two profiles that agree on what the shadowsocks compiler reads compile to the same document |
| NormalForm.ShadowsocksFixpoint | src/appproxy.cpp:377-392 | reading a shadowsocks document back as a profile and compiling it again gives the same document |
| NormalForm.TcpFixpoint | src/appproxy.cpp:265-301 | a profile that reads back the tcp object's fields rebuilds the same tcp object |
| NormalForm.KcpCongruent | src/appproxy.cpp:302-315 | the kcp object is determined by the coerced numbers, the flag and the lower-cased header type |
| NormalForm.KcpFixpoint | src/appproxy.cpp:302-315 | a profile that reads back the kcp object's fields rebuilds the same kcp object |
| NormalForm.WsFixpoint | src/appproxy.cpp:316-321 | a profile that reads back the ws object's fields rebuilds it and has the same server address |
| NormalForm.HttpFixpoint | src/appproxy.cpp:322-327 | a profile that reads back the http object's fields rebuilds the same http object |
| NormalForm.DsFixpoint | src/appproxy.cpp:328-331 | a profile that reads back the domain socket path rebuilds the same object |
| NormalForm.QuicFixpoint | src/appproxy.cpp:332-340 | a profile that reads back the quic object's fields rebuilds the same quic object |
| NormalForm.SettingsFixpoint | src/appproxy.cpp:265-341 | for every transport, a profile that reads back its object rebuilds the same object |
| NormalForm.TransportFixpoint | src/appproxy.cpp:255-343 | the profile read back from a stream object has the same server address and rebuilds the selected transport's object |
| NormalForm.BuildCongruent | src/appproxy.cpp:255-343 | stream settings are determined by the raw network, the lower-cased security, the flag and the selected transport's object |
| NormalForm.VmessCongruent | src/appproxy.cpp:230-253 | two profiles that agree on what the vmess compiler reads, stream settings included, compile to the same document |
| NormalForm.ProtocolFixpoint | src/appproxy.cpp:231-262 | a profile holding the document's protocol fields reads every field outside the transport as the original does |
| NormalForm.VmessFixpoint | src/appproxy.cpp:230-343 | reading a vmess document back as a profile and compiling it again, with the same draws, gives the same document |
| Scenarios.PortCoercion | src/appproxy.cpp:387 | "8388" converts to 8388 and "-443" to -443; "notanumber" and the empty string convert to 0 |
| Scenarios.LowerExamples | src/appproxy.cpp:388 | "AES-256-GCM" lower-cases to "aes-256-gcm" and "TLS" to "tls" |
| Scenarios.WsExampleObject | src/appproxy.cpp:316-321 | the example ws profile gives path /ws and host header 1.2.3.4 |
| Scenarios.WsScenario | src/appproxy.cpp:255-343 | the example ws profile gives stream settings with network ws, security tls and the ws object |
| Scenarios.WsDocument | src/appproxy.cpp:403-404 | through editServer the example ws profile compiles to a vmess document tagged proxy-vmess whose stream settings have network ws, security tls and the ws object |
| Scenarios.SsExampleServer | src/appproxy.cpp:385-389 | the example shadowsocks profile gives a server with method aes-256-gcm and port 8388 |
| Scenarios.ShadowsocksScenario | src/appproxy.cpp:377-392 | the example shadowsocks document runs over plain tcp with method aes-256-gcm and port 8388 |

## Left out

- Qt signal and slot plumbing, the worker thread and latency probing (src/appproxy.cpp:16-36, 189-209). These are concurrency and event glue.
- Starting, stopping and restarting the proxy core. Also the configurator's persistence: adding, editing and removing servers, app config, and connection state (src/appproxy.cpp:57-95, 211-228, 365-375, 408-422). These are external singletons, and V2RayCore and Configurator are not part of this model. `Compiler.EditServer` returns the document that editServer would hand to the configurator.
- Reading and clearing logs (src/appproxy.cpp:97-131). This is file I/O.
- System proxy registration (src/appproxy.cpp:135-162). This is an operating-system side effect.
- `QJsonDocument::fromJson`: the model starts from the parsed object. A string that fails to parse becomes an empty object, which is just another profile here.
- `std::rand()` itself. The draws are the parameter `rand`, with non-negative values.
- The empty stubs `getSystemProxyMode`, `addSubscriptionUrl` and `addServerConfigFile` (src/appproxy.cpp:133, 394, 396). They compute nothing.
- QtString.ToInt: a numeral with surrounding whitespace such as " 443" reads as 0 here, where QString::toInt skips the whitespace and gives 443; nothing in the source trims profile fields first (src/appproxy.cpp:401-404), so such a port compiles differently. Whitespace skipping is not modelled.
- QtString.Lower: maps only ASCII letters, because QString::toLower's Unicode case tables are outside the model. Every string the source compares against is ASCII.
- NormalForm.VmessFixpoint: holds when both compilations see the same draws. The user agents of a tcp profile with header type http depend on the draws, so with fresh draws the agents of the two documents may differ.
- JSON numbers are integers here, while QJsonValue stores doubles. The difference cannot be observed: every number the compiler writes is a 32-bit integer, which a double holds exactly. A number it reads is read through toString(), which gives "" for any number, or through toBool(), which gives false for any number (`autoConnect`, `allowInsecure`, `kcpCongestion`), or is echoed raw (`network` at line 259, the ws host at line 321). A fractional number echoed raw is outside the model.
