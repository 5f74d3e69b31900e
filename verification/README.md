# Hiddify configuration compiler, modelled in Dafny

The core of hiddify-core turns a user's proxy configuration (a sing-box
`option.Options` with outbounds, perhaps a DNS and a route section) together
with the application's `HiddifyOptions` into the full configuration the
sing-box engine runs. `BuildConfig` builds a fresh configuration object and
fills its sections in a fixed order:

- `setInbound`: a TUN inbound (only when the tunnel is on and no tunnel
  service is used), a mixed proxy inbound and a DNS inbound;
- `setDns`: the user's DNS section, or the legacy resolver chain
  local → direct → remote plus the dns-block server;
- `setRoutingOptions`: a route table whose layout is fixed (the Android self
  bypass, the DNS hijack rules, the LAN bypass, the user's rules, ad
  blocking, the region rules), the rule sets it declares, and the DNS rules
  that go with it (among them one that resolves the connection-test host
  over the remote server; the connection test gets no route rule);
- `setFakeDns` and the rewrite of `rcode://` DNS servers into predefined
  DNS rule actions;
- `setOutbounds`: clone and patch every user outbound (TLS tricks,
  multiplexing), drop the system ones, put the selector and URL-test groups
  in front and the fixed system outbounds behind, and pin the server domain
  of every proxy (and the remote DNS host) to the direct resolver.

The CLI platform's two cursor iterators (strings and network interfaces)
are modelled as classes, each over a slice and an index.

Modules, in the order they are declared:

| file | module | what it holds |
|---|---|---|
| wrappers.dfy | Wrappers | `Option`, `Result` |
| text.dfy | Text | substring search, `removeDuplicateStr`, a flat-map on sequences |
| engine.dfy | Engine | the sing-box option types; proxy and TLS options are classes, the rest values |
| tags.dfy | Tags | the reserved tags of config/config.go (the sing-box type names are in Engine) |
| preferences.dfy | Preferences, Externals | `HiddifyOptions`, and the collaborators outside the model as one `Env` value |
| outbound_patch.dfy | OutboundPatch | config/outbound.go |
| routing.dfy | Routing | the route and DNS tables of `setRoutingOptions` |
| dns_chain.dfy | DnsChain | `setDns`, `setFakeDns`, the rcode rewrite |
| outbound_graph.dfy | OutboundGraph | the outbound graph of `setOutbounds` and `addForceDirect` |
| inbounds.dfy | Inbounds | `setInbound` |
| compiler.dfy | Compiler | the configuration object and the step-by-step `BuildConfig` |
| platform.dfy | Platform | v2/libbox_platform_default.go's iterators |
| references.dfy | References | which tags the route, DNS and inbound sections name, and when each has a target |

Each step that changes the configuration in place is a method of
`Compiler.Config`. Its contract gives the new section as a function of the
old state and the inputs, and says that the other sections are untouched.
The properties the source promises are lemmas about those functions.

Where the code and its documentation disagree, the model follows the code:

- In full-config mode only the user's inbounds are kept. The DNS and route
  sections are always rebuilt (`Compiler.BuildConfig`).
- A user rule whose target is the block outbound still gets a DNS
  companion rule. That rule routes to dns-block with the cache disabled
  (`Routing.CompanionShape`).
- User outbound tags are not checked against the reserved tags. A user
  outbound tagged `direct` yields two outbounds with that tag
  (`OutboundGraph.ReservedTagCollision`).
- Nothing checks that a tag a section names exists. A preference rule may
  name any outbound; a kept user DNS section need not have the servers the
  generated DNS rules route to (`References.KeptDNSMayDangle`); and with a
  tunnel service on Android, or fake DNS without a built TUN, rules name the
  tun-in inbound that is not built (`References.InboundsBuilt`, `References.AndroidBypassNamesTun`, `References.FakeDNSNamesTun`).
- When some tag contains `§default§`, the selector's default is the marker
  itself, not the tag that holds it (`OutboundGraph.DefaultSentinel`).
- The fake-DNS twin of a proxied user rule is restricted to the TUN and
  mixed inbounds. When the rule itself matches nothing, that twin still
  counts as valid, and it becomes a catch-all for those inbounds
  (`Routing.EmptyProxiedRuleBecomesCatchAll`).

## Model

| member | source | states |
|---|---|---|
| Text.IndexOf | config/config.go:88 | the result is the first position where the separator occurs, or None exactly when it occurs nowhere |
| Text.ContainsIff | config/config.go:88 | strings.Contains holds iff the separator occurs at some position |
| Text.AfterSchemeStripsScheme | config/config.go:87-90 | stripping "scheme://" from the remote DNS address yields the host; an address with no "://" is left as it is |
| Text.DedupedElements | config/config.go:852-862 | removeDuplicateStr keeps exactly the elements of its input, each once |
| Text.DedupedOfDistinct | config/config.go:852-862 | a list without duplicates comes back unchanged |
| Text.DedupedIdempotent | config/config.go:852-862 | removing duplicates twice is the same as once |
| Text.RemoveDuplicateStr | config/config.go:852-862 | the loop over the seen-map returns the first occurrences in order; the result has no duplicates and the same elements |
| OutboundPatch.ServerDomain | config/outbound.go:72-98 | the domain is non-empty iff the outbound is a proxy with a server, no detour, and a server that is not an IP; it is then "full:" + server |
| OutboundPatch.PatchedTLSEffect | config/outbound.go:60-70 | TLS patching turns on fragmenting only for enabled non-Reality TLS; it keeps enabled and reality and leaves disabled or Reality TLS alone |
| OutboundPatch.MuxPatchedEffect | config/outbound.go:23-42 | with mux off, or for a protocol without TLS and mux, the outbound is unchanged; otherwise its multiplex options are the configured ones, enabled |
| OutboundPatch.PatchedKeepsShape | config/outbound.go:10-21 | patching keeps tag, type, protocol, server, port and detour, and is idempotent |
| OutboundPatch.PatchedKeepsIdentity | config/outbound.go:10-21 | so patching keeps the server domain |
| OutboundPatch.PatchTLSOptions | config/outbound.go:60-70 | the TLS object is updated in place to the patched TLS value; nil is left alone |
| OutboundPatch.PatchOutboundTLSTricks | config/outbound.go:49-58 | the outbound's TLS options are patched in place |
| OutboundPatch.PatchOutboundMux | config/outbound.go:23-47 | the outbound's multiplex options are replaced in place by a fresh copy of the configured ones |
| OutboundPatch.CloneOutbound | config/unmarshal_options.go:44-55 | the clone fails or is a fresh object equal in value to the original |
| OutboundPatch.PatchOutbound | config/outbound.go:10-21 | it fails (with the outbound's tag and type) iff cloning fails; otherwise a fresh patched copy and the server domain of the original |
| Routing.ResolveRuleOutboundFacts | config/config.go:515-526 | "proxy" and "" map to the main proxy tag, every other tag to itself; the result is never empty and resolving twice changes nothing |
| Routing.CompanionShape | config/config.go:623-639 | each user rule gets one DNS rule routed to the tier of its target (with the cache off iff it is blocked), preceded by a fake-DNS twin on tun-in and mixed-in when fake DNS applies |
| Routing.UserRouteRulesAppend | config/config.go:608-621 | the user route rules of a concatenation are the concatenation of the user route rules |
| Routing.UserDNSRulesAppend | config/config.go:608-640 | the same for the user DNS rules |
| Routing.CompanionsInOrder | config/config.go:623-639 | the DNS rules of user rule i sit, in order, in a contiguous block after those of rules 0..i-1 |
| Routing.UserDNSRulesTiers | config/config.go:623-639 | every user DNS rule routes to direct, block, remote or fake; fake only when fake DNS is on; block always with the cache disabled |
| Routing.UserRouteRulesMembership | config/config.go:609-621 | a route rule comes from the user rules iff it is the non-empty rule of some user rule, routed to its resolved outbound |
| Routing.RouteTableLayout | config/config.go:533-621 | the route table is the Android bypass (tunnel on Android), the DNS-inbound and port-53 hijacks, the LAN bypass (if enabled), then the user rules, then the trailing rules |
| Routing.FixedRuleSetsDeclared | config/config.go:655-803 | every rule-set tag used by an ad-block or region rule is declared in the route's rule sets |
| Routing.DeclaredTag | config/config.go:655-803 | each ad-block tag (when ads are blocked) and each region tag (when a region is set) is declared |
| Routing.IranRegionScenario | config/config.go:743-803 | with region "ir" and no ad blocking, the table ends with the .ir direct rule and the geoip/geosite direct rule, and the rule sets are the two remote 120-hour sets |
| Routing.ValidOnlyMembership | config/config.go:817-829 | filtering keeps exactly the valid DNS rules of the list |
| Routing.AppendedDNSRulesFacts | config/config.go:817-829 | a DNS rule is appended iff DNS routing is on and it is a valid candidate |
| Routing.AppendedDNSTiers | config/config.go:623-653 | every appended DNS rule routes to direct, block, remote or fake, and to fake only when fake DNS is on |
| Routing.EmptyProxiedRuleBecomesCatchAll | config/config.go:630-639 | for a proxied rule that matches nothing, only the fake-DNS twin survives, as a catch-all on tun-in and mixed-in |
| DnsChain.ResolverChainAcyclic | config/config.go:357-362 | the legacy chain has four distinct tags, and each address resolver names a later server, so resolution terminates |
| DnsChain.DNSForFacts | config/config.go:350-373 | the user's DNS section is kept iff it has servers and clones; otherwise the upgraded four-server chain with final remote and no rules, whose tags, when the upgrade keeps tags, are remote, direct, local, block with the final among them |
| DnsChain.SplitRCodeServers | config/config.go:379-389 | the split loop yields the rcode map (last server of a tag wins) and the servers without the rcode ones |
| DnsChain.RewriteDNSRuleRCode | config/config.go:399-409 | the recursive rewrite of a rule, logical rules included, equals the rewritten rule |
| DnsChain.RewriteWithEmptyMap | config/config.go:391-396 | with no rcode servers the rules are left as they are |
| DnsChain.RewriteLeavesOthers | config/config.go:411-418 | a rule that routes to no rcode server is unchanged |
| DnsChain.RewriteRemovesRCodeRoutes | config/config.go:399-424 | after the rewrite no rule routes to an rcode server; kind, matchers and mode are kept |
| DnsChain.RewriteIdempotent | config/config.go:399-424 | rewriting twice is the same as once |
| DnsChain.RewriteActionEffect | config/config.go:411-424 | a route to an rcode server becomes a predefined action with that server's rcode |
| DnsChain.RCodeMapLastWins | config/config.go:381-385 | the last rcode server with a tag decides that tag's rcode |
| DnsChain.RCodeMapDomain | config/config.go:381-385 | a tag is in the rcode map iff some rcode server carries it |
| DnsChain.FilteredServersFacts | config/config.go:380-390 | the kept servers are exactly the non-rcode ones; with none to remove the list is unchanged |
| DnsChain.RewriteKeepsTargets | config/config.go:375-424 | when every routed server exists (and an rcode one carries its rcode), after the rewrite every rule that still routes names an existing server |
| DnsChain.RewrittenDNSFacts | config/config.go:375-397 | the rewrite keeps final, cache and the number of rules, drops exactly the rcode servers and leaves no route into them |
| DnsChain.WithFakeDNSFacts | config/config.go:457-492 | fake DNS appends the fake-ip server and its rule when enabled and changes nothing otherwise |
| DnsChain.FakeDNSSurvivesRewrite | config/config.go:76-77 | when no rcode server is tagged like the fake server, the fake server and the fake rule survive the rcode rewrite |
| OutboundGraph.PickDefault | config/config.go:170-176 | the default is the marker iff some tag contains it, and the URL-test group otherwise |
| OutboundGraph.FirstCloneFailure | config/config.go:134-138 | the first outbound whose clone fails, or None when all clone |
| OutboundGraph.KeptOutboundsMembership | config/config.go:143-153 | an outbound is kept iff it is the patched form of a non-system input outbound |
| OutboundGraph.SelectableTagsMembership | config/config.go:143-153 | a tag is offered to the groups iff some selectable outbound carries it |
| OutboundGraph.KeptTagsDistinct | config/config.go:143-153 | distinct user tags give distinct kept tags, each from a non-system input |
| OutboundGraph.GroupMembersExist | config/config.go:156-187 | the selector lists the URL-test group and the offered tags, the URL-test group lists the offered tags, and every member of a group exists in the graph |
| OutboundGraph.GraphLayout | config/config.go:156-226 | the graph is selector, URL test (the configured URL, interval, tolerance 1, idle 3x interval), the kept outbounds, then dns-out, direct, direct-fragment, bypass, block |
| OutboundGraph.ReservedTagsDistinct | config/config.go:23-44 | the group tags and the system tags are pairwise distinct |
| OutboundGraph.GraphTagsDistinct | config/config.go:187-226 | when user tags are distinct and none is reserved, every tag in the graph is unique |
| OutboundGraph.ReservedTagCollision | config/config.go:143-153 | a user outbound tagged "direct" makes the graph's tags collide |
| OutboundGraph.SingleShadowsocksScenario | config/config.go:130-226 | one shadowsocks outbound yields an eight-outbound graph with the selector over urltest and it, defaulting to urltest |
| OutboundGraph.DefaultSentinel | config/config.go:170-185 | the default is urltest or the marker; the marker is a selector member only if some tag is exactly the marker |
| OutboundGraph.ServerDomainsMembership | config/config.go:140-142 | the collected domains are exactly the non-empty server domains |
| OutboundGraph.ForceDirectDomainsFacts | config/config.go:86-94 | the domains pinned direct are the server domains plus the remote DNS host when it parses and is not an IP |
| OutboundGraph.WithForceDirectFacts | config/config.go:117-126 | one DNS rule routing the joined domains to direct is put in front of the other rules; servers and final are kept |
| Inbounds.NewInboundsFacts | config/config.go:261-348 | two or three inbounds: tun first when built, then mixed and DNS on the same address (LAN bind iff allowed) at the configured ports |
| Inbounds.TunAddressFacts | config/config.go:283-293 | the TUN gets the IPv4 address unless IPv6-only and the IPv6 one unless IPv4-only |
| Compiler.Config.constructor | config/config.go:64 | a new configuration has no sections |
| Compiler.Config.SetInbound | config/config.go:261-348 | appends the new inbounds and nothing else changes |
| Compiler.Config.SetDns | config/config.go:350-373 | the DNS section becomes the one DNSFor computes |
| Compiler.Config.SetRoutingOptions | config/config.go:528-830 | the route section is set and the valid candidate DNS rules are appended when DNS routing is on |
| Compiler.Config.AppendValidDNSRules | config/config.go:817-829 | only the valid rules are appended to the DNS section |
| Compiler.Config.SetFakeDns | config/config.go:457-492 | the DNS section gets the fake-ip server and rule iff fake DNS is on |
| Compiler.Config.RewriteRCodeDNSServers | config/config.go:375-397 | the DNS section is replaced by its rcode rewrite |
| Compiler.Config.SetOutbounds | config/config.go:130-230 | a clone failure is returned (tag and type) with nothing changed; otherwise the outbounds become fresh objects with the graph's values and the DNS section gets the force-direct rule for some enumeration of the domains |
| Compiler.AddForceDirect | config/config.go:86-128 | with no domain to pin the DNS section is unchanged; otherwise it gets one direct rule over some enumeration of the domain set |
| Compiler.ForceDirectBeside | config/config.go:228 | the same, and the outbound graph built before is untouched |
| Compiler.BuildOutbounds | config/config.go:130-227 | the first clone failure, or fresh outbounds with the graph's values and the server domains |
| Compiler.PatchAll | config/config.go:134-154 | the loop stops at the first clone failure; otherwise it yields the kept outbounds, the offered tags and the server domains |
| Compiler.AddOutbound | config/config.go:135-153 | one step of the loop: the patched outbound is kept unless it is a system type, its tag offered if selectable, its domain collected |
| Compiler.Graph | config/config.go:156-226 | the groups in front and the system outbounds behind the kept ones, objects shared |
| Compiler.SystemOutboundsValues | config/config.go:189-226 | the system outbounds are the five fixed values and own no mutable object |
| Compiler.CompileRule | config/config.go:608-639 | one user rule gives its route rule (if non-empty) and its DNS companions |
| Compiler.UserRuleTables | config/config.go:608-640 | the loop over user rules yields the user route rules after the leading ones, and the user DNS rules |
| Compiler.TrailingTables | config/config.go:642-803 | the ad-block and region route rules; the connection-test, ad-block and region DNS rules; and the rule sets |
| Compiler.RoutingTables | config/config.go:529-803 | the whole route table, the candidate DNS rules and the rule sets |
| Compiler.PrepareConfig | config/config.go:61-77 | a fresh configuration with the inbounds, the route and the DNS section as the earlier steps make them, no outbounds yet |
| Compiler.BuildConfig | config/config.go:61-84 | the first clone failure, or a fresh configuration whose inbounds, route, outbound graph and DNS section (with the force-direct rule) are as specified |
| References.RouteOutboundsExist | config/config.go:515-816 | the route final "select", every fixed route rule's outbound and the targets of "proxy", "", "bypass" and "block" are tags of the outbound graph |
| References.FixedRuleOutbound | config/config.go:528-803 | every fixed route rule routes to one of the graph's reserved outbounds |
| References.FallbackDNSResolves | config/config.go:350-424 | without a usable user DNS section and with a tag-keeping upgrade, every routing DNS rule names a server; the final does unless the remote tier became an rcode server, and the force-direct rule does unless the direct tier did |
| References.FallbackResolvable | config/config.go:350-373 | before the rcode rewrite every routing DNS rule names a chain tier or the fake-ip server |
| References.KeptDNSMayDangle | config/config.go:350-356 | a kept user DNS section without dns-direct, with DNS routing and a region, ends with a region rule that names no server |
| References.InboundsBuilt | config/config.go:261-348 | tun-in is among the inbounds iff built (tunnel on, no tunnel service) or brought by a full configuration; mixed-in and dns-in always are |
| References.AndroidBypassNamesTun | config/config.go:533-547 | with the tunnel on Android the first route rule names tun-in, also when a tunnel service means tun-in is not built |
| References.FakeDNSNamesTun | config/config.go:457-492 | with fake DNS on, the fake-DNS rule is added and names tun-in, whether or not a TUN is built |
| Platform.ToInt32 | v2/libbox_platform_default.go:99-101 | the int32 conversion is the value congruent modulo 2^32 in range, and the identity on int32 values |
| Platform.IterateInOrder | v2/libbox_platform_default.go:103-114 | successive Next calls yield the remaining values in order, then the zero value |
| Platform.FreshIteratorYieldsAll | v2/libbox_platform_default.go:95-114 | a fresh iterator yields exactly its values, then zero values |
| Platform.StringIterator.constructor | v2/libbox_platform_default.go:95-97 | a new iterator is at the start of its values |
| Platform.StringIterator.Len | v2/libbox_platform_default.go:99-101 | the length as int32, exact when it fits |
| Platform.StringIterator.HasNext | v2/libbox_platform_default.go:103-105 | true iff Next would advance |
| Platform.StringIterator.Next | v2/libbox_platform_default.go:107-114 | returns the value at the cursor and advances, or "" and stays |
| Platform.NetworkIterator.constructor | v2/libbox_platform_default.go:116-119 | a new iterator is at the start of its interfaces |
| Platform.NetworkIterator.HasNext | v2/libbox_platform_default.go:121-123 | true iff Next would advance |
| Platform.NetworkIterator.Next | v2/libbox_platform_default.go:125-132 | returns the interface at the cursor and advances, or nil and stays |
| Platform.CliPlatform.SystemCertificates | v2/libbox_platform_default.go:80-82 | a fresh, empty string iterator of length 0 |
| Platform.CliPlatform.GetInterfaces | v2/libbox_platform_default.go:64-66 | a fresh, empty interface iterator and no error |

## Left out

- setClashAPI: it draws a random secret; randomness is outside the model (generateRandomString too).
- setLog, and every log or Printf call: logging only.
- BuildConfigJson and the JSON marshalling and unmarshalling: serialisation, not compilation.
- The tunnel service start in setInbound: a platform side effect.
- config/parser.go: a separate entry point that is not part of this model.
- isBlockedDomain: it resolves the domain over the network.
- IP prefixes, durations and ports are plain values; nothing is parsed or range-checked.
- Collaborators outside the model are fields of `Externals.Env`: `net.ParseIP`, the host of `url.Parse`, Rule.MakeRule and MakeDNSRule, DNSServerOptions.Upgrade, and whether the OS is Android.
- OutboundPatch.CloneOutbound: the JSON round trip of cloneOutbound and cloneDNSOptions is a predicate on the value: either it fails or it yields an equal copy. A copy that differs from the original is not modelled.
- Compiler.AddForceDirect: Go's map iteration order is unspecified, so the contract holds for some enumeration of the domain set, not a particular one.
- Compiler.Config.SetRoutingOptions: the source dereferences a nil DNS section when there are DNS rules to append (a panic); the model requires the section then. The same holds for SetFakeDns and SetOutbounds.
- DnsChain.DNSForFacts: DNSServerOptions.Upgrade is sing-box code outside the model. The tags and final of the built chain, and every DNS reference lemma of References, are stated under the hypothesis `UpgradeKeepsTag` (the upgrade keeps a server's tag, and an rcode server it yields carries an rcode).
- Strings are sequences of characters, while Go compares and searches strings byte by byte; no encoding is modelled, so a tag or domain outside ASCII may compare differently.
- DNS rules, route rules and rule sets are values. Only proxy options and TLS options, which the patches update in place, are objects.
- The other cliPlatform members: they return constants or an "unsupported" error and touch no state.
- libbox.NetworkInterface: its fields are not modelled; the iterator only moves references to interfaces.
