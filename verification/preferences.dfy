/** The preference set (HiddifyOptions) as far as the compiler reads it, and
    the user's routing-rule specifications. Durations are whole numbers of an
    unspecified unit; ports and sizes are natural numbers. */
module Preferences {

  /** A user routing rule: its comma-separated domain list, the outbound it
      selects ("proxy", "bypass", "block", "" or an outbound tag) and the rest
      of its matcher fields, which only the rule builders read. */
  datatype RuleSpec = RuleSpec(domains: string, outbound: string, matchers: seq<string>)

  datatype MuxPreferences = MuxPreferences(enable: bool, padding: bool, protocol: string, maxStreams: int)

  datatype TLSTricks = TLSTricks(enableFragment: bool)

  datatype HiddifyOptions = HiddifyOptions(
    enableFullConfig: bool,
    remoteDnsAddress: string,
    remoteDnsDomainStrategy: nat,
    directDnsAddress: string,
    directDnsDomainStrategy: nat,
    independentDNSCache: bool,
    enableFakeDNS: bool,
    enableDNSRouting: bool,
    enableTun: bool,
    enableTunService: bool,
    tunStack: string,
    mtu: nat,
    strictRoute: bool,
    ipv6Mode: nat,
    resolveDestination: bool,
    allowConnectionFromLAN: bool,
    mixedPort: nat,
    localDnsPort: nat,
    setSystemProxy: bool,
    bypassLAN: bool,
    blockAds: bool,
    region: string,
    rules: seq<RuleSpec>,
    connectionTestUrl: string,
    urlTestInterval: nat,
    mux: MuxPreferences,
    tlsTricks: TLSTricks)
}

/** The collaborators whose code is not part of this model, as values handed
    to the compiler: the Go standard library's IP and URL parsers, the rule
    builders of the preference rules, the JSON round trip used for cloning
    (which either fails or yields an equal copy), the engine's legacy DNS
    server upgrade, and whether the runtime OS is Android. */
module Externals {
  import opened Wrappers
  import opened Engine
  import opened Preferences

  datatype Env = Env(
    /** net.ParseIP(s) != nil */
    isIP: string -> bool,
    /** url.Parse(s): None on error, otherwise the Host of the URL */
    urlHost: string -> Option<string>,
    /** Rule.MakeRule: the matcher of the route rule built from a preference rule */
    makeRule: RuleSpec -> Matcher,
    /** Rule.MakeDNSRule: the matcher of the DNS rule built from a preference rule */
    makeDNSRule: RuleSpec -> Matcher,
    /** cloneOutbound succeeds on this outbound */
    cloneOk: OutboundValue -> bool,
    /** cloneDNSOptions succeeds on these DNS options */
    cloneDNSOk: DNSOptions -> bool,
    /** DNSServerOptions.Upgrade applied to a freshly built legacy server */
    upgrade: DNSServer -> DNSServer,
    /** runtime.GOOS == "android" */
    android: bool)
}
