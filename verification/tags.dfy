/** The tags the compiler reserves for itself (config/config.go:23-44). */
module Tags {
  const DNSRemoteTag := "dns-remote"
  const DNSLocalTag := "dns-local"
  const DNSDirectTag := "dns-direct"
  const DNSBlockTag := "dns-block"
  const DNSFakeTag := "dns-fake"

  const OutboundDirectTag := "direct"
  const OutboundBypassTag := "bypass"
  const OutboundBlockTag := "block"
  const OutboundSelectTag := "select"
  const OutboundURLTestTag := "urltest"
  const OutboundDNSTag := "dns-out"
  const OutboundDirectFragmentTag := "direct-fragment"

  const InboundTUNTag := "tun-in"
  const InboundMixedTag := "mixed-in"
  const InboundDNSTag := "dns-in"

  /** OutboundMainProxyTag is a package variable that nothing reassigns. */
  const OutboundMainProxyTag := OutboundSelectTag
}
