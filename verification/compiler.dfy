/** BuildConfig of config/config.go: the engine configuration under
    construction (option.Options) is an object whose sections the setX
    steps fill in place, in a fixed order. */
module Compiler {
  import opened Wrappers
  import opened Text
  import opened Engine
  import opened Preferences
  import opened Externals
  import opened Tags
  import opened OutboundPatch
  import opened Routing
  import opened DnsChain
  import opened OutboundGraph
  import opened Inbounds

  /** The sections of the input configuration the compiler reads. */
  datatype InputOptions = InputOptions(
    inbounds: seq<Inbound>,
    dns: Option<DNSOptions>,
    route: Option<RouteOptions>,
    outbounds: seq<Outbound>)

  /** option.Options: the sections the compiler writes. A missing DNS or
      route section is a nil pointer in the source. */
  class Config {
    var inbounds: seq<Inbound>
    var dns: Option<DNSOptions>
    var route: Option<RouteOptions>
    var outbounds: seq<Outbound>

    constructor ()
      ensures inbounds == [] && dns == None && route == None && outbounds == []
    {
      inbounds, dns, route, outbounds := [], None, None, [];
    }

    /** setInbound (config/config.go:261-348). Starting the tunnel service
        is a platform side effect outside this model. */
    method SetInbound(opt: HiddifyOptions)
      modifies this
      ensures inbounds == old(inbounds) + NewInbounds(opt)
      ensures dns == old(dns) && route == old(route) && outbounds == old(outbounds)
    {
      var inboundDomainStrategy := if !opt.resolveDestination then DomainStrategyAsIs else opt.ipv6Mode;
      var start := inbounds;
      if opt.enableTunService {
      } else if opt.enableTun {
        var tunOptions := TunOptions(opt.tunStack, opt.mtu, [], true, opt.strictRoute, true, true, false,
                                     inboundDomainStrategy);
        if opt.ipv6Mode == DomainStrategyUseIPv4 {
          tunOptions := tunOptions.(address := tunOptions.address + [TunIPv4Address]);
        } else if opt.ipv6Mode == DomainStrategyUseIPv6 {
          tunOptions := tunOptions.(address := tunOptions.address + [TunIPv6Address]);
        } else {
          tunOptions := tunOptions.(address := tunOptions.address + [TunIPv4Address, TunIPv6Address]);
        }
        assert tunOptions.address == TunAddresses(opt.ipv6Mode);
        inbounds := inbounds + [Inbound(TypeTun, InboundTUNTag, tunOptions)];
      }
      inbounds := inbounds + [MixedInbound(opt)];
      inbounds := inbounds + [DNSInbound(opt)];
      assert inbounds == start + NewInbounds(opt);
    }

    /** setDns (config/config.go:350-373); buildDNSServer's upgrade is the
        engine's. */
    method SetDns(opt: HiddifyOptions, input: Option<DNSOptions>, env: Env)
      modifies this
      ensures dns == Some(DNSFor(input, opt, env))
      ensures inbounds == old(inbounds) && route == old(route) && outbounds == old(outbounds)
    {
      if input.Some? && |input.value.servers| > 0 {
        if env.cloneDNSOk(input.value) {
          dns := Some(input.value);
          return;
        }
      }
      var servers := [
        env.upgrade(LegacyDNSServer(DNSRemoteTag, opt.remoteDnsAddress, DNSDirectTag, opt.remoteDnsDomainStrategy, "")),
        env.upgrade(LegacyDNSServer(DNSDirectTag, opt.directDnsAddress, DNSLocalTag, opt.directDnsDomainStrategy, "")),
        env.upgrade(LegacyDNSServer(DNSLocalTag, LocalDNSAddress, "", DomainStrategyAsIs, "")),
        env.upgrade(LegacyDNSServer(DNSBlockTag, BlockDNSAddress, "", DomainStrategyAsIs, ""))];
      dns := Some(DNSOptions(servers, [], DNSRemoteTag, opt.independentDNSCache));
    }

    /** setRoutingOptions (config/config.go:528-830). The source writes into
        the DNS section only when a valid DNS rule is appended, so only then
        must it exist. */
    method SetRoutingOptions(opt: HiddifyOptions, env: Env)
      modifies this
      requires AppendedDNSRules(opt, env) != [] ==> dns.Some?
      ensures route == Some(RouteOptionsFor(opt, env))
      ensures dns == if old(dns).None? then None
                     else Some(old(dns).value.(rules := old(dns).value.rules + AppendedDNSRules(opt, env)))
      ensures inbounds == old(inbounds) && outbounds == old(outbounds)
    {
      var routeRules, dnsRules, rulesets := RoutingTables(opt, env);
      route := Some(RouteOptions(routeRules, OutboundMainProxyTag, true, env.android, rulesets));
      if opt.enableDNSRouting {
        AppendValidDNSRules(dnsRules);
      } else {
        assert old(dns).Some? ==> old(dns).value.rules + [] == old(dns).value.rules;
      }
    }

    /** The last loop of setRoutingOptions (config/config.go:817-829). */
    method AppendValidDNSRules(dnsRules: seq<DNSRule>)
      modifies this
      requires ValidOnly(dnsRules) != [] ==> dns.Some?
      ensures dns == if old(dns).None? then None
                     else Some(old(dns).value.(rules := old(dns).value.rules + ValidOnly(dnsRules)))
      ensures inbounds == old(inbounds) && outbounds == old(outbounds) && route == old(route)
    {
      var j := 0;
      assert dnsRules[..0] == [];
      assert old(dns).Some? ==> old(dns).value.(rules := old(dns).value.rules + []) == old(dns).value;
      while j < |dnsRules|
        invariant 0 <= j <= |dnsRules|
        invariant dns == if old(dns).None? then None
                         else Some(old(dns).value.(rules := old(dns).value.rules + ValidOnly(dnsRules[..j])))
        invariant inbounds == old(inbounds) && outbounds == old(outbounds) && route == old(route)
      {
        var dnsRule := dnsRules[j];
        assert dnsRules[..j + 1][..j] == dnsRules[..j];
        ghost var before := ValidOnly(dnsRules[..j]);
        if IsValidDNSRule(dnsRule) {
          ValidOnlyMembership(dnsRules, dnsRule);
          assert ValidOnly(dnsRules[..j + 1]) == before + [dnsRule];
          assert old(dns).value.rules + before + [dnsRule] == old(dns).value.rules + (before + [dnsRule]);
          dns := Some(dns.value.(rules := dns.value.rules + [dnsRule]));
        } else {
          assert ValidOnly(dnsRules[..j + 1]) == before + [];
          assert before + [] == before;
        }
        j := j + 1;
      }
      assert dnsRules[..j] == dnsRules;
    }

    /** setFakeDns (config/config.go:457-492). */
    method SetFakeDns(opt: HiddifyOptions)
      modifies this
      requires opt.enableFakeDNS ==> dns.Some?
      ensures dns == if opt.enableFakeDNS then Some(WithFakeDNS(old(dns).value, opt)) else old(dns)
      ensures inbounds == old(inbounds) && route == old(route) && outbounds == old(outbounds)
    {
      if opt.enableFakeDNS {
        dns := Some(dns.value.(servers := dns.value.servers + [FakeIPServer]));
        dns := Some(dns.value.(rules := dns.value.rules + [FakeDNSRule]));
      }
    }

    /** rewriteRCodeDNSServers (config/config.go:375-397): each rule is
        rewritten where it stands in the rule list. */
    method RewriteRCodeDNSServers()
      modifies this
      ensures dns == if old(dns).None? then None else Some(RewrittenDNS(old(dns).value))
      ensures inbounds == old(inbounds) && route == old(route) && outbounds == old(outbounds)
    {
      if dns.None? || |dns.value.servers| == 0 {
        return;
      }
      ghost var d0 := dns.value;
      var rcodeServers, filteredServers := SplitRCodeServers(dns.value.servers);
      dns := Some(dns.value.(servers := filteredServers));
      if |rcodeServers| == 0 || |dns.value.rules| == 0 {
        return;
      }
      var i := 0;
      while i < |dns.value.rules|
        invariant dns.Some? && dns.value.servers == FilteredServers(d0.servers)
        invariant dns.value.final == d0.final && dns.value.independentCache == d0.independentCache
        invariant |dns.value.rules| == |d0.rules| && 0 <= i <= |d0.rules|
        invariant forall k :: 0 <= k < i ==> dns.value.rules[k] == RewrittenRule(rcodeServers, d0.rules[k])
        invariant forall k :: i <= k < |d0.rules| ==> dns.value.rules[k] == d0.rules[k]
        invariant inbounds == old(inbounds) && route == old(route) && outbounds == old(outbounds)
      {
        var rewritten := RewriteDNSRuleRCode(rcodeServers, dns.value.rules[i]);
        dns := Some(dns.value.(rules := dns.value.rules[i := rewritten]));
        i := i + 1;
      }
      assert dns.value.rules == seq(|d0.rules|, k requires 0 <= k < |d0.rules| => RewrittenRule(rcodeServers, d0.rules[k]));
    }

    /** setOutbounds (config/config.go:130-230): patch every input outbound,
        stopping at the first that cannot be cloned; keep the user kinds,
        build the two groups and append the built-in outbounds. The input
        outbounds are never modified. */
    method SetOutbounds(input: seq<Outbound>, opt: HiddifyOptions, env: Env) returns (err: Option<PatchError>)
      modifies this
      requires FirstCloneFailure(ValuesOf(input), env).None? && ForceDirectDomains(ValuesOf(input), opt, env) != {} ==>
        dns.Some?
      ensures var vs := old(ValuesOf(input));
        match FirstCloneFailure(vs, env)
        case Some(i) =>
          err == Some(PatchError(vs[i].tag, vs[i].typ)) && outbounds == old(outbounds) && dns == old(dns)
        case None =>
          var all := ForceDirectDomains(vs, opt, env);
          err == None && fresh(FootprintOf(outbounds)) && ValuesOf(outbounds) == GraphValues(vs, opt) &&
          (all == {} ==> dns == old(dns)) &&
          (all != {} ==> exists keys :: Enumerates(keys, all) && dns == Some(WithForceDirect(old(dns).value, keys, env)))
      ensures inbounds == old(inbounds) && route == old(route)
    {
      var built := BuildOutbounds(input, opt, env);
      if built.Failure? {
        return Some(built.error);
      }
      var (graph, directDNSDomains) := built.value;
      var forced := ForceDirectBeside(graph, dns, opt, directDNSDomains, env);
      label graphBuilt:
      outbounds, dns := graph, forced;
      ValuesOfUnchanged@graphBuilt(graph);
      err := None;
    }
  }

  /** addForceDirect (config/config.go:86-128): the DNS section with a rule
      sending the server domains and the remote resolver's host to the direct
      resolver in front. The domain map is a set; the order in which Go's map
      iteration lists its keys is not fixed, so any order is allowed. */
  method AddForceDirect(dns: Option<DNSOptions>, opt: HiddifyOptions, directDNSDomains: set<string>, env: Env)
    returns (r: Option<DNSOptions>)
    requires directDNSDomains + RemoteHostDomains(opt, env) != {} ==> dns.Some?
    ensures var all := directDNSDomains + RemoteHostDomains(opt, env);
      (all == {} ==> r == dns) &&
      (all != {} ==> exists keys :: Enumerates(keys, all) && r == Some(WithForceDirect(dns.value, keys, env)))
  {
    r := dns;
    var remoteDNSAddress := opt.remoteDnsAddress;
    if Contains(remoteDNSAddress, SchemeSeparator) {
      remoteDNSAddress := AfterScheme(remoteDNSAddress);
    }
    var domains := directDNSDomains;
    var parsedHost := env.urlHost("https://" + remoteDNSAddress);
    if parsedHost.Some? && !env.isIP(parsedHost.value) {
      domains := domains + {parsedHost.value};
    }
    assert domains == directDNSDomains + RemoteHostDomains(opt, env);
    if |domains| > 0 {
      var keys: seq<string> := [];
      var rest := domains;
      while rest != {}
        invariant rest <= domains && Distinct(keys)
        invariant forall k :: k in keys <==> k in domains && k !in rest
        decreases |rest|
      {
        var key :| key in rest;
        keys := keys + [key];
        rest := rest - {key};
      }
      assert Enumerates(keys, domains);
      r := Some(dns.value.(rules := [ForceDirectRule(keys, env)] + dns.value.rules));
    }
  }

  /** AddForceDirect, called once the outbound list `graph` is built, leaves
      that list's values alone. */
  method ForceDirectBeside(graph: seq<Outbound>, dns: Option<DNSOptions>, opt: HiddifyOptions,
                           directDNSDomains: set<string>, env: Env)
    returns (r: Option<DNSOptions>)
    requires directDNSDomains + RemoteHostDomains(opt, env) != {} ==> dns.Some?
    ensures var all := directDNSDomains + RemoteHostDomains(opt, env);
      (all == {} ==> r == dns) &&
      (all != {} ==> exists keys :: Enumerates(keys, all) && r == Some(WithForceDirect(dns.value, keys, env)))
    ensures ValuesOf(graph) == old(ValuesOf(graph))
  {
    r := AddForceDirect(dns, opt, directDNSDomains, env);
  }

  /** The outbound list of setOutbounds (config/config.go:130-227) and the
      server domains it collects for addForceDirect. */
  method BuildOutbounds(input: seq<Outbound>, opt: HiddifyOptions, env: Env)
    returns (r: Result<(seq<Outbound>, set<string>), PatchError>)
    ensures var vs := old(ValuesOf(input));
      match FirstCloneFailure(vs, env)
      case Some(i) => r == Failure(PatchError(vs[i].tag, vs[i].typ))
      case None =>
        r.Success? && fresh(FootprintOf(r.value.0)) && ValuesOf(r.value.0) == GraphValues(vs, opt) &&
        r.value.1 + RemoteHostDomains(opt, env) == ForceDirectDomains(vs, opt, env)
  {
    ghost var vs := ValuesOf(input);
    var patched := PatchAll(input, opt, env);
    if patched.Failure? {
      return Failure(patched.error);
    }
    var (kept, tags, directDNSDomains) := patched.value;
    ghost var kv := ValuesOf(kept);
    var graph := Graph(kept, tags, opt);
    GraphValuesOf(vs, opt, kv, tags);
    r := Success((graph, directDNSDomains));
  }

  /** GraphValues in terms of what PatchAll computes. */
  lemma GraphValuesOf(vs: seq<OutboundValue>, opt: HiddifyOptions, kv: seq<OutboundValue>, tags: seq<string>)
    requires kv == KeptOutbounds(vs, opt) && tags == SelectableTags(vs)
    ensures GraphValues(vs, opt) == [SelectorValue(tags), URLTestValue(tags, opt)] + kv + SystemValues
  {
  }

  /** The loop of setOutbounds over the input outbounds
      (config/config.go:134-154): the patched outbounds kept in the graph,
      the tags offered to the selector and the server domains collected, or
      the first patch failure. */
  method PatchAll(input: seq<Outbound>, opt: HiddifyOptions, env: Env)
    returns (r: Result<(seq<Outbound>, seq<string>, set<string>), PatchError>)
    ensures var vs := old(ValuesOf(input));
      match FirstCloneFailure(vs, env)
      case Some(i) => r == Failure(PatchError(vs[i].tag, vs[i].typ))
      case None =>
        r.Success? && fresh(FootprintOf(r.value.0)) &&
        ValuesOf(r.value.0) == KeptOutbounds(vs, opt) &&
        r.value.1 == SelectableTags(vs) && r.value.2 == ServerDomains(vs, env)
  {
    var vs := ValuesOf(input);
    var directDNSDomains: set<string> := {};
    var kept: seq<Outbound> := [];
    var tags: seq<string> := [];
    var i := 0;
    while i < |vs|
      invariant 0 <= i <= |vs|
      invariant FirstCloneFailure(vs, env).None? || FirstCloneFailure(vs, env).value >= i
      invariant fresh(FootprintOf(kept))
      invariant ValuesOf(kept) == KeptOutbounds(vs[..i], opt)
      invariant tags == SelectableTags(vs[..i])
      invariant directDNSDomains == ServerDomains(vs[..i], env)
    {
      var step := AddOutbound(vs[i], kept, tags, directDNSDomains, opt, env);
      if step.Failure? {
        CloneFailureAt(vs, i, env);
        return Failure(step.error);
      }
      CloneFailureBeyond(vs, i, env);
      PatchStep(vs, i, opt, env);
      var added := step.value.0;
      ValuesOfAppend(kept, added);
      kept, tags, directDNSDomains := kept + added, step.value.1, step.value.2;
      i := i + 1;
    }
    assert vs[..i] == vs;
    r := Success((kept, tags, directDNSDomains));
  }

  /** One iteration of the loop of setOutbounds (config/config.go:135-153):
      the input outbound is patched and its server domain collected; the
      patched copy is to be appended to the outbounds (and its tag offered
      to the groups) unless it is a system outbound (or a hidden one). The
      outbounds `kept` so far are left alone. */
  method AddOutbound(v: OutboundValue, kept: seq<Outbound>, tags: seq<string>, domains: set<string>,
                     opt: HiddifyOptions, env: Env)
    returns (r: Result<(seq<Outbound>, seq<string>, set<string>), PatchError>)
    ensures !env.cloneOk(v) ==> r == Failure(PatchError(v.tag, v.typ))
    ensures var d := ServerDomain(v, env);
      env.cloneOk(v) ==>
        r.Success? && fresh(FootprintOf(r.value.0)) &&
        ValuesOf(r.value.0) == Kept(v, opt) &&
        r.value.1 == tags + OfferedTag(v) &&
        r.value.2 == domains + (if d != "" then {d} else {})
    ensures ValuesOf(kept) == old(ValuesOf(kept))
  {
    ghost var keptBefore := ValuesOf(kept);
    var p := PatchOutbound(v, opt, env);
    assert ValuesOf(kept) == keptBefore;
    if p.Failure? {
      return Failure(p.error);
    }
    var (outbound, serverDomain) := p.value;
    ghost var pv := Patched(v, opt);
    assert ValueOf(outbound) == pv;
    PatchedKeepsShape(v, opt);
    var added, newTags, newDomains := [], tags, domains;
    if serverDomain != "" {
      newDomains := newDomains + {serverDomain};
    }
    if !IsSystemType(outbound.typ) {
      if !Contains(outbound.tag, HideMarker) {
        newTags := newTags + [outbound.tag];
      }
      added := [outbound];
      assert ValuesOf(added) == [pv];
      assert FootprintOf(added) == Footprint(outbound);
    } else {
      FootprintOfBuiltins(added);
    }
    r := Success((added, newTags, newDomains));
  }

  /** How the tables PatchAll accumulates grow by one input outbound. */
  lemma PatchStep(vs: seq<OutboundValue>, i: nat, opt: HiddifyOptions, env: Env)
    requires i < |vs|
    ensures KeptOutbounds(vs[..i + 1], opt) == KeptOutbounds(vs[..i], opt) + Kept(vs[i], opt)
    ensures SelectableTags(vs[..i + 1]) == SelectableTags(vs[..i]) + OfferedTag(vs[i])
    ensures var d := ServerDomain(vs[i], env);
      ServerDomains(vs[..i + 1], env) == ServerDomains(vs[..i], env) + (if d != "" then {d} else {})
  {
    assert vs[..i + 1][..i] == vs[..i];
  }

  /** The outbound PatchAll fails on is the first one that cannot be cloned. */
  lemma CloneFailureAt(vs: seq<OutboundValue>, i: nat, env: Env)
    requires i < |vs| && !env.cloneOk(vs[i])
    requires FirstCloneFailure(vs, env).None? || FirstCloneFailure(vs, env).value >= i
    ensures FirstCloneFailure(vs, env) == Some(i)
  {
  }

  /** An outbound that can be cloned is not the first failure. */
  lemma CloneFailureBeyond(vs: seq<OutboundValue>, i: nat, env: Env)
    requires i < |vs| && env.cloneOk(vs[i])
    requires FirstCloneFailure(vs, env).None? || FirstCloneFailure(vs, env).value >= i
    ensures FirstCloneFailure(vs, env).None? || FirstCloneFailure(vs, env).value >= i + 1
  {
  }

  /** The outbound list setOutbounds assembles (config/config.go:156-226):
      the selector and the URL test over `tags`, the kept outbounds, then the
      system outbounds. */
  method Graph(kept: seq<Outbound>, tags: seq<string>, opt: HiddifyOptions) returns (outbounds: seq<Outbound>)
    ensures FootprintOf(outbounds) == FootprintOf(kept)
    ensures ValuesOf(outbounds) == [SelectorValue(tags), URLTestValue(tags, opt)] + old(ValuesOf(kept)) + SystemValues
  {
    label start:
    var defaultSelect := PickDefault(tags);
    ValuesOfUnchanged@start(kept);
    var urlTest := Outbound(TypeURLTest, OutboundURLTestTag,
      Builtin(URLTestOptions(tags, opt.connectionTestUrl, opt.urlTestInterval, URLTestTolerance,
                             opt.urlTestInterval * 3, true)));
    var selector := Outbound(TypeSelector, OutboundSelectTag,
      Builtin(SelectorOptions([urlTest.tag] + tags, defaultSelect, true)));
    var head := [selector, urlTest];
    FootprintOfBuiltins(head);
    SystemOutboundsValues();
    ValuesOfAppend(head, kept);
    ValuesOfAppend(head + kept, SystemOutbounds);
    assert ValuesOf(head) == [SelectorValue(tags), URLTestValue(tags, opt)];
    outbounds := head + kept + SystemOutbounds;
  }

  /** The built-in outbounds setOutbounds appends (config/config.go:189-226). */
  const SystemOutbounds := seq(|SystemValues|, i requires 0 <= i < |SystemValues| => AsOutbound(SystemValues[i]))

  /** The built-in outbounds own no objects and have the values the graph
      expects. */
  lemma SystemOutboundsValues()
    ensures FootprintOf(SystemOutbounds) == {}
    ensures ValuesOf(SystemOutbounds) == SystemValues
  {
    FootprintOfBuiltins(SystemOutbounds);
  }

  /** The body of the loop of setRoutingOptions over the preference rules
      (config/config.go:609-639): the route rule it appends (if valid) and
      the DNS rules it appends. */
  method CompileRule(rule: RuleSpec, opt: HiddifyOptions, env: Env)
    returns (routeRules: seq<RouteRule>, dnsRules: seq<DNSRule>)
    ensures routeRules == UserRouteRule(rule, env)
    ensures dnsRules == CompanionDNSRules(rule, opt, env)
  {
    routeRules, dnsRules := [], [];
    var targetOutbound := ResolveRuleOutbound(rule.outbound);
    var routeRule := RouteRule(env.makeRule(rule), RouteActionForOutbound(targetOutbound));
    if IsValidRouteRule(routeRule) {
      routeRules := routeRules + [routeRule];
    }
    var m := env.makeDNSRule(rule);
    var dnsRule: DNSRule;
    if targetOutbound == OutboundBypassTag {
      dnsRule := DefaultDNSRule(m, DNSRouteActionForServer(DNSDirectTag));
    } else if targetOutbound == OutboundBlockTag {
      var a := DNSRouteActionForServer(DNSBlockTag);
      dnsRule := DefaultDNSRule(m, a.(route := a.route.(disableCache := true)));
    } else {
      if opt.enableFakeDNS {
        var fakeDnsRule := DefaultDNSRule(m.(inbound := [InboundTUNTag, InboundMixedTag]),
                                          DNSRouteActionForServer(DNSFakeTag));
        dnsRules := dnsRules + [fakeDnsRule];
      }
      dnsRule := DefaultDNSRule(m, DNSRouteActionForServer(DNSRemoteTag));
    }
    dnsRules := dnsRules + [dnsRule];
  }

  /** The loop of setRoutingOptions over the preference rules
      (config/config.go:608-640), continuing the route table `lead`. */
  method UserRuleTables(opt: HiddifyOptions, env: Env, lead: seq<RouteRule>)
    returns (routeRules: seq<RouteRule>, dnsRules: seq<DNSRule>)
    ensures routeRules == lead + UserRouteRules(opt.rules, env)
    ensures dnsRules == UserDNSRules(opt.rules, opt, env)
  {
    var rules := opt.rules;
    routeRules, dnsRules := lead, [];
    var i := 0;
    while i < |rules|
      invariant 0 <= i <= |rules|
      invariant routeRules == lead + UserRouteRules(rules[..i], env)
      invariant dnsRules == UserDNSRules(rules[..i], opt, env)
    {
      var routeRule, ruleDNS := CompileRule(rules[i], opt, env);
      UserTablesStep(rules, i, opt, env);
      routeRules := routeRules + routeRule;
      dnsRules := dnsRules + ruleDNS;
      i := i + 1;
    }
    assert rules[..i] == rules;
  }

  /** How the tables UserRuleTables accumulates grow by one preference rule. */
  lemma UserTablesStep(rules: seq<RuleSpec>, i: nat, opt: HiddifyOptions, env: Env)
    requires i < |rules|
    ensures UserRouteRules(rules[..i + 1], env) == UserRouteRules(rules[..i], env) + UserRouteRule(rules[i], env)
    ensures UserDNSRules(rules[..i + 1], opt, env) == UserDNSRules(rules[..i], opt, env) + CompanionDNSRules(rules[i], opt, env)
  {
    assert rules[..i + 1][..i] == rules[..i];
  }

  /** The ad-block and region parts of setRoutingOptions
      (config/config.go:642-803): what is appended after the preference
      rules. */
  method TrailingTables(opt: HiddifyOptions, env: Env)
    returns (routeRules: seq<RouteRule>, dnsRules: seq<DNSRule>, rulesets: seq<RuleSet>)
    ensures routeRules == TrailingRouteRules(opt)
    ensures dnsRules == TrailingDNSRules(opt, env)
    ensures rulesets == RuleSetsFor(opt)
  {
    routeRules, dnsRules, rulesets := [], [], [];
    var parsedHost := env.urlHost(opt.connectionTestUrl);
    if parsedHost.Some? {
      var a := DNSRouteActionForServer(DNSRemoteTag);
      dnsRules := dnsRules + [DefaultDNSRule(EmptyMatcher.(domain := [parsedHost.value]),
                                             a.(route := a.route.(rewriteTTL := Some(ConnectionTestTTL))))];
    }
    ghost var probed := dnsRules;
    if opt.blockAds {
      rulesets := rulesets + AdBlockRuleSets;
      routeRules := routeRules + [AdBlockRouteRule];
      dnsRules := dnsRules + [AdBlockDNSRule];
    }
    ghost var blocked, blockedDNS, blockedSets := routeRules, dnsRules, rulesets;
    if opt.region != "other" {
      var regional := RegionDNSRules(opt.region);
      var direct := RegionRouteRules(opt.region);
      dnsRules := dnsRules + [regional[0]];
      routeRules := routeRules + [direct[0]];
      dnsRules := dnsRules + [regional[1]];
      rulesets := rulesets + RegionRuleSets(opt.region);
      routeRules := routeRules + [direct[1]];
      assert dnsRules == blockedDNS + regional;
      assert routeRules == blocked + direct;
    }
  }

  /** The three tables setRoutingOptions builds (config/config.go:529-803):
      the route rules, the candidate DNS rules and the rule sets. */
  method RoutingTables(opt: HiddifyOptions, env: Env)
    returns (routeRules: seq<RouteRule>, dnsRules: seq<DNSRule>, rulesets: seq<RuleSet>)
    ensures routeRules == RouteRulesFor(opt, env)
    ensures dnsRules == CandidateDNSRules(opt, env)
    ensures rulesets == RuleSetsFor(opt)
  {
    routeRules := [];
    if opt.enableTun && env.android {
      routeRules := routeRules + [AndroidSelfBypassRule];
    }
    routeRules := routeRules + [DNSInboundRule];
    routeRules := routeRules + [DNSPortRule];
    if opt.bypassLAN {
      routeRules := routeRules + [LANBypassRule];
    }
    assert routeRules == LeadingRouteRules(opt, env);
    routeRules, dnsRules := UserRuleTables(opt, env, routeRules);
    var routeTail, dnsTail;
    routeTail, dnsTail, rulesets := TrailingTables(opt, env);
    routeRules := routeRules + routeTail;
    dnsRules := dnsRules + dnsTail;
  }

  /** The DNS section just before setOutbounds runs. */
  function DNSBeforeOutbounds(opt: HiddifyOptions, input: InputOptions, env: Env): DNSOptions
  {
    var d := DNSFor(input.dns, opt, env);
    RewrittenDNS(WithFakeDNS(d.(rules := d.rules + AppendedDNSRules(opt, env)), opt))
  }

  /** The first half of BuildConfig (config/config.go:61-77): a new
      configuration with everything but the outbounds set up. */
  method PrepareConfig(opt: HiddifyOptions, input: InputOptions, env: Env) returns (options: Config)
    ensures fresh(options) && options.outbounds == []
    ensures options.inbounds == (if opt.enableFullConfig then input.inbounds else []) + NewInbounds(opt)
    ensures options.route == Some(RouteOptionsFor(opt, env))
    ensures options.dns == Some(DNSBeforeOutbounds(opt, input, env))
  {
    options := new Config();
    if opt.enableFullConfig {
      options.inbounds := input.inbounds;
      options.dns := input.dns;
      options.route := input.route;
    }
    options.SetInbound(opt);
    options.SetDns(opt, input.dns, env);
    options.SetRoutingOptions(opt, env);
    options.SetFakeDns(opt);
    options.RewriteRCodeDNSServers();
  }

  /** BuildConfig (config/config.go:61-84). Only the inbounds survive from
      the input in full-config mode: setDns and setRoutingOptions always
      overwrite the DNS and route sections. The clash API and log sections
      are outside this model. */
  method BuildConfig(opt: HiddifyOptions, input: InputOptions, env: Env) returns (r: Result<Config, PatchError>)
    ensures var vs := old(ValuesOf(input.outbounds));
      match FirstCloneFailure(vs, env)
      case Some(i) => r == Failure(PatchError(vs[i].tag, vs[i].typ))
      case None =>
        var pre := DNSBeforeOutbounds(opt, input, env);
        var all := ForceDirectDomains(vs, opt, env);
        r.Success? && fresh(r.value) &&
        r.value.inbounds == (if opt.enableFullConfig then input.inbounds else []) + NewInbounds(opt) &&
        r.value.route == Some(RouteOptionsFor(opt, env)) &&
        fresh(FootprintOf(r.value.outbounds)) && ValuesOf(r.value.outbounds) == GraphValues(vs, opt) &&
        (all == {} ==> r.value.dns == Some(pre)) &&
        (all != {} ==> exists keys :: Enumerates(keys, all) && r.value.dns == Some(WithForceDirect(pre, keys, env)))
  {
    ghost var vs := ValuesOf(input.outbounds);
    var options := PrepareConfig(opt, input, env);
    assert ValuesOf(input.outbounds) == vs;
    var err := options.SetOutbounds(input.outbounds, opt, env);
    if err.Some? {
      return Failure(err.value);
    }
    return Success(options);
  }
}
