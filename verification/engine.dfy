/** The slice of the proxy engine's (sing-box's) option structures that the
    configuration compiler reads or writes. Type names are the engine's
    constant strings. Protocol options of the four proxy kinds and their
    TLS block are objects, because the outbound patcher updates them in place
    through pointers; everything else is a value. */
module Engine {
  import opened Wrappers

  // Outbound and inbound type names.
  const TypeDirect := "direct"
  const TypeBlock := "block"
  const TypeDNS := "dns"
  const TypeSelector := "selector"
  const TypeURLTest := "urltest"
  const TypeTun := "tun"
  const TypeMixed := "mixed"

  // Rule and rule-action kinds.
  const RuleActionTypeRoute := "route"
  const RuleActionTypePredefined := "predefined"

  // DNS server types.
  const DNSTypeLegacy := "legacy"
  const DNSTypeLegacyRcode := "legacy_rcode"
  const DNSTypeFakeIP := "fakeip"

  // Rule sets.
  const RuleSetTypeRemote := "remote"
  const RuleSetFormatBinary := "binary"

  // Domain strategies, numbered as the DNS library numbers them.
  const DomainStrategyAsIs: nat := 0
  const DomainStrategyUseIPv4: nat := 3
  const DomainStrategyUseIPv6: nat := 4

  /** The outbound option structures with a server, a dialer detour and
      (except Shadowsocks) a TLS block. */
  datatype ProxyKind = VLESS | VMess | Trojan | Shadowsocks

  datatype MultiplexOptions = MultiplexOptions(enabled: bool, padding: bool, protocol: string, maxStreams: int)

  /** A snapshot of an outbound TLS block. `reality` is None when the block
      has no REALITY part (a nil pointer) and Some(enabled) otherwise. */
  datatype TLSValue = TLSValue(enabled: bool, fragment: bool, reality: Option<bool>)

  /** *option.OutboundTLSOptions */
  class TLSOptions {
    var enabled: bool
    var fragment: bool
    var reality: Option<bool>

    constructor (v: TLSValue)
      ensures Value() == v
    {
      enabled, fragment, reality := v.enabled, v.fragment, v.reality;
    }

    function Value(): TLSValue
      reads this
    {
      TLSValue(enabled, fragment, reality)
    }
  }

  /** A snapshot of the protocol options of a proxy outbound. */
  datatype ProxyValue = ProxyValue(
    kind: ProxyKind,
    server: string,
    serverPort: nat,
    detour: string,
    tls: Option<TLSValue>,
    multiplex: Option<MultiplexOptions>)

  /** *option.VLESSOutboundOptions, *option.VMessOutboundOptions,
      *option.TrojanOutboundOptions and *option.ShadowsocksOutboundOptions.
      The TLS pointer is never re-pointed by the compiler, only the block it
      points to is changed, so it is a constant field. */
  class ProxyOptions {
    const kind: ProxyKind
    var server: string
    var serverPort: nat
    var detour: string
    const tls: TLSOptions?
    var multiplex: Option<MultiplexOptions>

    /** The objects that make up these options. */
    function Repr(): set<object>
    {
      {this} + if tls == null then {} else {tls}
    }

    /** Allocates fresh option structures holding `v`. */
    constructor (v: ProxyValue)
      ensures fresh(Repr()) && Value() == v
    {
      kind, server, serverPort, detour, multiplex := v.kind, v.server, v.serverPort, v.detour, v.multiplex;
      if v.tls.Some? {
        tls := new TLSOptions(v.tls.value);
      } else {
        tls := null;
      }
    }

    function Value(): ProxyValue
      reads Repr()
    {
      ProxyValue(kind, server, serverPort, detour, if tls == null then None else Some(tls.Value()), multiplex)
    }
  }

  /** Options of the outbounds the compiler builds itself, and of every other
      outbound kind (which it never looks into). */
  datatype BuiltinOptions =
    | SelectorOptions(outbounds: seq<string>, defaultTag: string, interruptExistConnections: bool)
    | URLTestOptions(outbounds: seq<string>, url: string, interval: nat, tolerance: nat, idleTimeout: nat,
                     interruptExistConnections: bool)
    | DirectOptions(tcpFastOpen: bool)
    | StubOptions
    | OtherOptions(kind: string)

  datatype OutboundOptions = Proxy(p: ProxyOptions) | Builtin(b: BuiltinOptions)

  /** option.Outbound: its type name, its tag and its options. */
  datatype Outbound = Outbound(typ: string, tag: string, options: OutboundOptions)

  datatype OptionsValue = ProxyV(v: ProxyValue) | BuiltinV(b: BuiltinOptions)

  /** A snapshot of an outbound, with the proxy options read out of the heap. */
  datatype OutboundValue = OutboundValue(typ: string, tag: string, options: OptionsValue)

  /** The objects an outbound's options consist of. */
  function Footprint(o: Outbound): set<object>
  {
    if o.options.Proxy? then o.options.p.Repr() else {}
  }

  function FootprintOf(os: seq<Outbound>): set<object>
  {
    set o, x | o in os && x in Footprint(o) :: x
  }

  function ValueOf(o: Outbound): OutboundValue
    reads Footprint(o)
  {
    match o.options
    case Proxy(p) => OutboundValue(o.typ, o.tag, ProxyV(p.Value()))
    case Builtin(b) => OutboundValue(o.typ, o.tag, BuiltinV(b))
  }

  function ValuesOf(os: seq<Outbound>): (vs: seq<OutboundValue>)
    reads FootprintOf(os)
    ensures |vs| == |os|
    ensures forall i :: 0 <= i < |os| ==> vs[i] == ValueOf(os[i])
  {
    seq(|os|, i requires 0 <= i < |os| reads FootprintOf(os) => ValueOf(os[i]))
  }

  lemma ValuesOfAppend(a: seq<Outbound>, b: seq<Outbound>)
    ensures FootprintOf(a + b) == FootprintOf(a) + FootprintOf(b)
    ensures ValuesOf(a + b) == ValuesOf(a) + ValuesOf(b)
  {
    var c := a + b;
    forall x | x in FootprintOf(c)
      ensures x in FootprintOf(a) + FootprintOf(b)
    {
      var o :| o in c && x in Footprint(o);
    }
  }

  /** The values of outbounds whose objects did not change did not change. */
  twostate lemma ValuesOfUnchanged(os: seq<Outbound>)
    requires unchanged(FootprintOf(os))
    ensures ValuesOf(os) == old(ValuesOf(os))
  {
  }

  /** Built-in outbounds own no heap objects. */
  lemma FootprintOfBuiltins(os: seq<Outbound>)
    requires forall i :: 0 <= i < |os| ==> os[i].options.Builtin?
    ensures FootprintOf(os) == {}
  {
    assert forall o :: o in os ==> Footprint(o) == {};
  }

  // ----- DNS -----

  datatype DNSServerOptions =
    | LegacyServer(address: string, addressResolver: string, strategy: nat, detour: string)
    | RCodeOptions(rcode: int)
    | FakeIPOptions(inet4Range: string, inet6Range: string)
    | OtherServerOptions(kind: string)

  /** option.DNSServerOptions */
  datatype DNSServer = DNSServer(tag: string, typ: string, options: DNSServerOptions)

  /** The matcher part of a default rule (route or DNS). `other` stands for
      every matcher field the compiler does not set itself (keywords,
      regexes, processes, ...), which only the preference-rule builders fill. */
  datatype Matcher = Matcher(
    inbound: seq<string>,
    packageName: seq<string>,
    port: seq<nat>,
    ipIsPrivate: bool,
    domain: seq<string>,
    domainSuffix: seq<string>,
    ruleSet: seq<string>,
    other: seq<string>)
  {
    /** No matcher field is set: IsValid of a default rule is the negation. */
    predicate IsEmpty()
    {
      inbound == [] && packageName == [] && port == [] && !ipIsPrivate &&
      domain == [] && domainSuffix == [] && ruleSet == [] && other == []
    }
  }

  const EmptyMatcher := Matcher([], [], [], false, [], [], [], [])

  datatype DNSRouteOptions = DNSRouteOptions(server: string, disableCache: bool, rewriteTTL: Option<nat>)

  const EmptyDNSRouteOptions := DNSRouteOptions("", false, None)

  /** option.DNSRuleAction: the action name, the route options and the rcode
      of the predefined options. */
  datatype DNSRuleAction = DNSRuleAction(action: string, route: DNSRouteOptions, rcode: Option<int>)

  /** option.DNSRule: a default rule, or a logical rule grouping sub-rules. */
  datatype DNSRule =
    | DefaultDNSRule(matcher: Matcher, action: DNSRuleAction)
    | LogicalDNSRule(mode: string, rules: seq<DNSRule>, action: DNSRuleAction)

  /** option.DNSOptions */
  datatype DNSOptions = DNSOptions(servers: seq<DNSServer>, rules: seq<DNSRule>, final: string, independentCache: bool)

  // ----- routing -----

  datatype RouteAction = RouteAction(action: string, outbound: string)

  /** A default route rule. */
  datatype RouteRule = RouteRule(matcher: Matcher, action: RouteAction)

  /** A remote rule set; the update interval is kept in hours. */
  datatype RuleSet = RuleSet(typ: string, tag: string, format: string, url: string, updateIntervalHours: nat)

  datatype RouteOptions = RouteOptions(
    rules: seq<RouteRule>,
    final: string,
    autoDetectInterface: bool,
    overrideAndroidVPN: bool,
    ruleSets: seq<RuleSet>)

  // ----- inbounds -----

  datatype InboundOptions =
    | TunOptions(stack: string, mtu: nat, address: seq<string>, autoRoute: bool, strictRoute: bool,
                 endpointIndependentNat: bool, sniffEnabled: bool, sniffOverrideDestination: bool, domainStrategy: nat)
    | MixedOptions(listen: string, listenPort: nat, sniffEnabled: bool, sniffOverrideDestination: bool,
                   domainStrategy: nat, setSystemProxy: bool)
    | DirectInboundOptions(listen: string, listenPort: nat)
    | OtherInboundOptions(kind: string)

  datatype Inbound = Inbound(typ: string, tag: string, options: InboundOptions)
}
