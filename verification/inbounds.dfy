/** The inbounds setInbound of config/config.go appends: an optional TUN
    device, the mixed HTTP/SOCKS listener and the DNS listener, both bound to
    loopback unless LAN connections are allowed. */
module Inbounds {
  import opened Engine
  import opened Preferences
  import opened Tags

  const TunIPv4Address := "172.19.0.1/28"
  const TunIPv6Address := "fdfe:dcba:9876::1/126"
  const LANBind := "0.0.0.0"
  const LoopbackBind := "127.0.0.1"

  /** The domain strategy of the inbounds: as-is unless destinations are
      resolved, then the IPv6 mode. */
  function InboundDomainStrategy(opt: HiddifyOptions): nat
  {
    if !opt.resolveDestination then DomainStrategyAsIs else opt.ipv6Mode
  }

  function TunAddresses(ipv6Mode: nat): seq<string>
  {
    if ipv6Mode == DomainStrategyUseIPv4 then [TunIPv4Address]
    else if ipv6Mode == DomainStrategyUseIPv6 then [TunIPv6Address]
    else [TunIPv4Address, TunIPv6Address]
  }

  function TunInbound(opt: HiddifyOptions): Inbound
  {
    Inbound(TypeTun, InboundTUNTag,
      TunOptions(opt.tunStack, opt.mtu, TunAddresses(opt.ipv6Mode), true, opt.strictRoute, true, true, false,
                 InboundDomainStrategy(opt)))
  }

  function BindAddress(opt: HiddifyOptions): string
  {
    if opt.allowConnectionFromLAN then LANBind else LoopbackBind
  }

  function MixedInbound(opt: HiddifyOptions): Inbound
  {
    Inbound(TypeMixed, InboundMixedTag,
      MixedOptions(BindAddress(opt), opt.mixedPort, true, true, InboundDomainStrategy(opt), opt.setSystemProxy))
  }

  function DNSInbound(opt: HiddifyOptions): Inbound
  {
    Inbound(TypeDirect, InboundDNSTag, DirectInboundOptions(BindAddress(opt), opt.localDnsPort))
  }

  /** The TUN inbound is built here only when TUN is on and no tunnel
      service takes it over. */
  predicate BuildsTun(opt: HiddifyOptions)
  {
    opt.enableTun && !opt.enableTunService
  }

  /** The inbounds setInbound appends, in order. */
  function NewInbounds(opt: HiddifyOptions): seq<Inbound>
  {
    (if BuildsTun(opt) then [TunInbound(opt)] else []) + [MixedInbound(opt), DNSInbound(opt)]
  }

  /** The appended inbounds are tun-in (when built), mixed-in and dns-in, in
      that order; the two listeners share the bind address, which is
      reachable from the LAN exactly when that is allowed. */
  lemma NewInboundsFacts(opt: HiddifyOptions)
    ensures var ins := NewInbounds(opt);
      |ins| == (if BuildsTun(opt) then 3 else 2) &&
      (BuildsTun(opt) ==> ins[0].tag == InboundTUNTag && ins[0].typ == TypeTun) &&
      ins[|ins| - 2].tag == InboundMixedTag && ins[|ins| - 1].tag == InboundDNSTag &&
      ins[|ins| - 2].options.listen == ins[|ins| - 1].options.listen &&
      (ins[|ins| - 1].options.listen == LANBind <==> opt.allowConnectionFromLAN) &&
      ins[|ins| - 2].options.listenPort == opt.mixedPort && ins[|ins| - 1].options.listenPort == opt.localDnsPort
  {
  }

  /** The TUN device gets an IPv4 address unless the mode is IPv6-only and
      an IPv6 address unless it is IPv4-only; it is never left without one. */
  lemma TunAddressFacts(ipv6Mode: nat)
    ensures |TunAddresses(ipv6Mode)| > 0
    ensures TunIPv4Address in TunAddresses(ipv6Mode) <==> ipv6Mode != DomainStrategyUseIPv6
    ensures TunIPv6Address in TunAddresses(ipv6Mode) <==> ipv6Mode != DomainStrategyUseIPv4
  {
  }
}
